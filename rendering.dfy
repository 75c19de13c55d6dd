/** The operator notification built from one saved submission: its subject,
    its plain-text body and its HTML body (server.js, lines 149-196). */
module Rendering {
  import opened Text
  import opened Js

  /** The thirteen form fields of a care inquiry, passed through untyped. */
  datatype Submission = Submission(
    careRecipient: JsValue, mainConcern: JsValue, medicalSituation: JsValue,
    currentCareLocation: JsValue, urgencyLevel: JsValue,
    firstName: JsValue, phone: JsValue, email: JsValue, bestTime: JsValue,
    carePreference: JsValue, insuranceCoverage: JsValue, specialRequests: JsValue,
    termsConsent: JsValue)

  /** The fields in the order the notification lists them. */
  function Fields(s: Submission): (vs: seq<JsValue>)
    ensures |vs| == |Labels|
  {
    [s.careRecipient, s.mainConcern, s.medicalSituation, s.currentCareLocation, s.urgencyLevel,
     s.firstName, s.phone, s.email, s.bestTime,
     s.carePreference, s.insuranceCoverage, s.specialRequests, s.termsConsent]
  }

  /** The label each field is shown under, in the same order. */
  const Labels: seq<string> :=
    ["Care recipient", "Main concern", "Medical situation", "Current care location", "Urgency level",
     "First name", "Phone", "Email", "Best time to call",
     "Care preference", "Insurance coverage", "Special requests", "Agreed to terms"]

  /** The three groups of fields: Situation holds fields 0-4, Contact 5-8, Preferences 9-12. */
  const Sections: seq<string> := ["Situation", "Contact", "Preferences"]

  function SectionOf(j: nat): (k: nat)
    ensures k < |Sections|
  {
    if j < 5 then 0 else if j < 9 then 1 else 2
  }

  /** `${v || '-'}`: the value when it is truthy, the placeholder otherwise. */
  function OrDash(v: JsValue): (r: string)
    ensures !Truthy(v) ==> r == "-"
    ensures Truthy(v) ==> r == ToText(v) && r != ""
  {
    if Truthy(v) then ToText(v) else "-"
  }

  /** `${v ? 'Yes' : 'No'}`. */
  function YesNo(v: JsValue): (r: string)
    ensures r == "Yes" <==> Truthy(v)
    ensures r == "Yes" || r == "No"
  {
    if Truthy(v) then "Yes" else "No"
  }

  /** How field `j` is shown: the consent flag as Yes/No, every other field
      as its value or the placeholder. */
  function Shown(s: Submission, j: nat): string
    requires j < |Labels|
  {
    if j == 12 then YesNo(Fields(s)[j]) else OrDash(Fields(s)[j])
  }

  const SubjectPrefix := "New HospiceConnect submission #"

  function Subject(id: int): string
  {
    SubjectPrefix + IntToDecimal(id)
  }

  function Headline(id: int): string
  {
    "New submission received (ID: " + IntToDecimal(id) + ")"
  }

  /** One `Label: value` line of the plain-text body. */
  function Line(name: string, value: string): string
  {
    name + ": " + value
  }

  /** The labelled lines of fields `lo` up to `hi` (exclusive), in order. */
  function FieldLines(s: Submission, lo: nat, hi: nat): (ls: seq<string>)
    requires lo <= hi <= |Labels|
    ensures |ls| == hi - lo
  {
    seq(hi - lo, k requires 0 <= k < hi - lo => Line(Labels[lo + k], Shown(s, lo + k)))
  }

  /** The lines of the plain-text body before they are joined with line
      breaks: the headline, a blank line, then the Situation, Contact and
      Preferences fields with a blank line between the groups. */
  function PlainLines(s: Submission, id: int): seq<string>
  {
    [Headline(id), ""] + FieldLines(s, 0, 5) + [""] + FieldLines(s, 5, 9) + [""] + FieldLines(s, 9, 13)
  }

  function PlainText(s: Submission, id: int): string
  {
    JoinLines(PlainLines(s, id))
  }

  const Indent10 := "          "
  const Indent12 := "            "

  function Item(name: string, value: string): string
  {
    Indent12 + "<li><strong>" + name + ":</strong> " + value + "</li>"
  }

  function Heading(title: string): string
  {
    Indent10 + "<h3>" + title + "</h3>"
  }

  /** The list items of fields `lo` up to `hi` (exclusive), in order. */
  function FieldItems(s: Submission, lo: nat, hi: nat): (ls: seq<string>)
    requires lo <= hi <= |Labels|
    ensures |ls| == hi - lo
  {
    seq(hi - lo, k requires 0 <= k < hi - lo => Item(Labels[lo + k], Shown(s, lo + k)))
  }

  /** Section `k` of the HTML body: its heading and a list of its fields. */
  function HtmlSection(s: Submission, k: nat, lo: nat, hi: nat): (ls: seq<string>)
    requires k < |Sections| && lo <= hi <= |Labels|
    ensures |ls| == hi - lo + 3
  {
    [Heading(Sections[k]), Indent10 + "<ul>"] + FieldItems(s, lo, hi) + [Indent10 + "</ul>"]
  }

  /** The lines of the HTML template literal between its opening line break
      and its closing indentation. */
  function HtmlLines(s: Submission, id: int): seq<string>
  {
    [Indent10 + "<h2>" + Headline(id) + "</h2>"]
      + HtmlSection(s, 0, 0, 5) + HtmlSection(s, 1, 5, 9) + HtmlSection(s, 2, 9, 13)
  }

  /** The whole template literal: a line break, the lines above, and the
      eight spaces before the closing backtick. */
  function Html(s: Submission, id: int): string
  {
    JoinLines([""] + HtmlLines(s, id) + ["        "])
  }

  /** Row of field `j` in the plain-text lines: a header and a blank line
      come first, and one blank line separates consecutive sections. */
  function PlainRow(j: nat): nat
  {
    j + 2 + SectionOf(j)
  }

  /** Row of field `j` in the HTML lines: the `<h2>` comes first, and every
      section adds an `<h3>`, an `<ul>` and a closing `</ul>`. */
  function HtmlRow(j: nat): nat
  {
    j + 3 + 3 * SectionOf(j)
  }

  /** Row of the `<h3>` of section `k` in the HTML lines. */
  function HeadingRow(k: nat): nat
  {
    if k == 0 then 1 else if k == 1 then 9 else 16
  }

  /** Field `j` appears in the plain-text body under its own label. */
  lemma PlainFieldLine(s: Submission, id: int, j: nat)
    requires j < |Labels|
    ensures |PlainLines(s, id)| == 17
    ensures PlainLines(s, id)[PlainRow(j)] == Line(Labels[j], Shown(s, j))
  {
    var lines := PlainLines(s, id);
    if j < 5 {
    } else if j < 9 {
    } else {
    }
  }

  /** Field `j` appears in the HTML body under its own label, showing the
      same text, below the heading of its section and above the next one. */
  lemma HtmlFieldLine(s: Submission, id: int, j: nat)
    requires j < |Labels|
    ensures |HtmlLines(s, id)| == 23
    ensures HtmlLines(s, id)[HtmlRow(j)] == Item(Labels[j], Shown(s, j))
    ensures HtmlLines(s, id)[HeadingRow(SectionOf(j))] == Heading(Sections[SectionOf(j)])
    ensures HeadingRow(SectionOf(j)) < HtmlRow(j)
    ensures SectionOf(j) < 2 ==> HtmlRow(j) < HeadingRow(SectionOf(j) + 1)
  {
    HtmlLinesAt(s, id);
    if j < 5 {
      SectionAt(s, 0, 0, 5, j);
    } else if j < 9 {
      SectionAt(s, 1, 5, 9, j - 5);
    } else {
      SectionAt(s, 2, 9, 13, j - 9);
    }
  }

  /** Where each section sits among the HTML lines. */
  lemma HtmlLinesAt(s: Submission, id: int)
    ensures |HtmlLines(s, id)| == 23
    ensures forall i :: 1 <= i < 9 ==> HtmlLines(s, id)[i] == HtmlSection(s, 0, 0, 5)[i - 1]
    ensures forall i :: 9 <= i < 16 ==> HtmlLines(s, id)[i] == HtmlSection(s, 1, 5, 9)[i - 9]
    ensures forall i :: 16 <= i < 23 ==> HtmlLines(s, id)[i] == HtmlSection(s, 2, 9, 13)[i - 16]
  {
  }

  /** A section opens with its heading and lists item `i` two lines further down. */
  lemma SectionAt(s: Submission, k: nat, lo: nat, hi: nat, i: nat)
    requires k < |Sections| && lo <= hi <= |Labels| && i < hi - lo
    ensures HtmlSection(s, k, lo, hi)[0] == Heading(Sections[k])
    ensures HtmlSection(s, k, lo, hi)[i + 2] == Item(Labels[lo + i], Shown(s, lo + i))
  {
    assert HtmlSection(s, k, lo, hi)[i + 2] == FieldItems(s, lo, hi)[i];
  }

  /** The fields keep their order in both bodies: an earlier field's line
      comes before a later field's line in the plain text and in the HTML. */
  lemma FieldOrder(s: Submission, id: int, j1: nat, j2: nat)
    requires j1 < j2 < |Labels|
    ensures PlainRow(j1) < PlainRow(j2) < |PlainLines(s, id)|
    ensures PlainLines(s, id)[PlainRow(j1)] == Line(Labels[j1], Shown(s, j1))
    ensures PlainLines(s, id)[PlainRow(j2)] == Line(Labels[j2], Shown(s, j2))
    ensures HtmlRow(j1) < HtmlRow(j2) < |HtmlLines(s, id)|
    ensures HtmlLines(s, id)[HtmlRow(j1)] == Item(Labels[j1], Shown(s, j1))
    ensures HtmlLines(s, id)[HtmlRow(j2)] == Item(Labels[j2], Shown(s, j2))
  {
    PlainFieldLine(s, id, j1);
    PlainFieldLine(s, id, j2);
    HtmlFieldLine(s, id, j1);
    HtmlFieldLine(s, id, j2);
  }

  /** The plain-text body has 17 lines, and it is blank exactly after the
      headline and between the sections. */
  lemma PlainLayout(s: Submission, id: int)
    ensures |PlainLines(s, id)| == 17 && PlainLines(s, id)[0] == Headline(id)
    ensures forall k :: 0 <= k < 17 ==> (PlainLines(s, id)[k] == "" <==> k == 1 || k == 7 || k == 12)
  {
    var lines := PlainLines(s, id);
    forall k | 0 <= k < 17
      ensures lines[k] == "" <==> k == 1 || k == 7 || k == 12
    {
      if k == 0 {
        assert |lines[k]| > 0;
      } else if 2 <= k < 7 {
        assert lines[k] == Line(Labels[k - 2], Shown(s, k - 2));
      } else if 8 <= k < 12 {
        assert lines[k] == Line(Labels[k - 3], Shown(s, k - 3));
      } else if 13 <= k {
        assert lines[k] == Line(Labels[k - 4], Shown(s, k - 4));
      }
    }
  }

  /** No field value contains a line break. */
  predicate SingleLineFields(s: Submission)
  {
    forall j :: 0 <= j < |Labels| ==> Fields(s)[j].Str? ==> SingleLine(Fields(s)[j].s)
  }

  lemma LineSingleLine(name: string, value: string)
    requires SingleLine(name) && SingleLine(value)
    ensures SingleLine(Line(name, value)) && SingleLine(Item(name, value))
  {
    assert SingleLine(": ");
    assert SingleLine(Indent12 + "<li><strong>");
    assert SingleLine(":</strong> ");
    assert SingleLine("</li>");
  }

  lemma LabelSingleLine(j: nat)
    requires j < |Labels|
    ensures SingleLine(Labels[j])
  {
    if j == 0 {} else if j == 1 {} else if j == 2 {} else if j == 3 {} else if j == 4 {}
    else if j == 5 {} else if j == 6 {} else if j == 7 {} else if j == 8 {}
    else if j == 9 {} else if j == 10 {} else if j == 11 {} else {}
  }

  lemma ShownSingleLine(s: Submission, j: nat)
    requires SingleLineFields(s) && j < |Labels|
    ensures SingleLine(Labels[j]) && SingleLine(Shown(s, j))
  {
    LabelSingleLine(j);
    assert SingleLine("-") && SingleLine("Yes") && SingleLine("No");
  }

  lemma FieldLinesSingleLine(s: Submission, lo: nat, hi: nat)
    requires SingleLineFields(s) && lo <= hi <= |Labels|
    ensures forall k :: 0 <= k < hi - lo ==> SingleLine(FieldLines(s, lo, hi)[k])
    ensures forall k :: 0 <= k < hi - lo ==> SingleLine(FieldItems(s, lo, hi)[k])
  {
    forall k | 0 <= k < hi - lo
      ensures SingleLine(FieldLines(s, lo, hi)[k]) && SingleLine(FieldItems(s, lo, hi)[k])
    {
      ShownSingleLine(s, lo + k);
      LineSingleLine(Labels[lo + k], Shown(s, lo + k));
    }
  }

  /** Reading the plain-text body line by line gives back its 17 lines, as
      long as no field value carries a line break of its own. */
  lemma PlainTextLines(s: Submission, id: int)
    requires SingleLineFields(s)
    ensures SplitLines(PlainText(s, id)) == PlainLines(s, id)
    ensures |SplitLines(PlainText(s, id))| == 17
  {
    PlainLinesSingleLine(s, id);
    SplitJoin(PlainLines(s, id));
  }

  lemma PlainLinesSingleLine(s: Submission, id: int)
    requires SingleLineFields(s)
    ensures |PlainLines(s, id)| == 17
    ensures forall k :: 0 <= k < |PlainLines(s, id)| ==> SingleLine(PlainLines(s, id)[k])
  {
    HeadlineSingleLine(id);
    FieldLinesSingleLine(s, 0, 5);
    FieldLinesSingleLine(s, 5, 9);
    FieldLinesSingleLine(s, 9, 13);
    var lines := PlainLines(s, id);
    forall k | 0 <= k < |lines| ensures SingleLine(lines[k]) {
      if 2 <= k < 7 {
        assert lines[k] == FieldLines(s, 0, 5)[k - 2];
      } else if 8 <= k < 12 {
        assert lines[k] == FieldLines(s, 5, 9)[k - 8];
      } else if 13 <= k {
        assert lines[k] == FieldLines(s, 9, 13)[k - 13];
      }
    }
  }

  lemma SectionSingleLine(s: Submission, k: nat, lo: nat, hi: nat)
    requires SingleLineFields(s) && k < |Sections| && lo <= hi <= |Labels|
    ensures forall i :: 0 <= i < hi - lo + 3 ==> SingleLine(HtmlSection(s, k, lo, hi)[i])
  {
    FieldLinesSingleLine(s, lo, hi);
    var sec := HtmlSection(s, k, lo, hi);
    assert SingleLine(Sections[k]);
    assert SingleLine(sec[0]) && SingleLine(sec[1]) && SingleLine(sec[hi - lo + 2]);
    forall i | 2 <= i < hi - lo + 2 ensures SingleLine(sec[i]) {
      assert sec[i] == FieldItems(s, lo, hi)[i - 2];
    }
  }

  lemma HeadlineSingleLine(id: int)
    ensures SingleLine(Headline(id))
    ensures SingleLine(Indent10 + "<h2>" + Headline(id) + "</h2>")
  {
    var open, close := "New submission received (ID: ", ")";
    assert SingleLine(open) && SingleLine(close);
    assert SingleLine(Indent10 + "<h2>") && SingleLine("</h2>");
  }

  lemma HtmlLinesSingleLine(s: Submission, id: int)
    requires SingleLineFields(s)
    ensures forall i :: 0 <= i < |HtmlLines(s, id)| ==> SingleLine(HtmlLines(s, id)[i])
  {
    SectionSingleLine(s, 0, 0, 5);
    SectionSingleLine(s, 1, 5, 9);
    SectionSingleLine(s, 2, 9, 13);
    HeadlineSingleLine(id);
    var body := HtmlLines(s, id);
    forall i | 0 <= i < |body| ensures SingleLine(body[i]) {
      if 1 <= i < 9 {
        assert body[i] == HtmlSection(s, 0, 0, 5)[i - 1];
      } else if 9 <= i < 16 {
        assert body[i] == HtmlSection(s, 1, 5, 9)[i - 9];
      } else if 16 <= i {
        assert body[i] == HtmlSection(s, 2, 9, 13)[i - 16];
      }
    }
  }

  /** Likewise for the HTML body: an empty first line, the 23 template lines,
      and the closing indentation. */
  lemma HtmlTextLines(s: Submission, id: int)
    requires SingleLineFields(s)
    ensures SplitLines(Html(s, id)) == [""] + HtmlLines(s, id) + ["        "]
  {
    var body := HtmlLines(s, id);
    HtmlLinesSingleLine(s, id);
    var lines := [""] + body + ["        "];
    forall k | 0 <= k < |lines| ensures SingleLine(lines[k]) {
      if 1 <= k <= |body| {
        assert lines[k] == body[k - 1];
      }
    }
    SplitJoin(lines);
  }

  /** A submission without a phone number shows the placeholder in both bodies. */
  lemma MissingPhone(s: Submission, id: int)
    requires !Truthy(s.phone)
    ensures PlainLines(s, id)[9] == Line("Phone", "-")
    ensures HtmlLines(s, id)[12] == Item("Phone", "-")
  {
    PlainFieldLine(s, id, 6);
    HtmlFieldLine(s, id, 6);
  }

  /** The subject names the submission, and its id can be read back from it. */
  lemma SubjectCarriesId(id: int)
    ensures |Subject(id)| > |SubjectPrefix| && Subject(id)[..|SubjectPrefix|] == SubjectPrefix
    ensures ParseInt(Subject(id)[|SubjectPrefix|..]) == id
  {
    assert Subject(id)[|SubjectPrefix|..] == IntToDecimal(id);
    ParseIntToDecimal(id);
  }
}
