/**
  The document generators: `generate_prd` with its markdown-to-JSON
  conversion, `generate_cursor_rules` with the framework block and the
  pattern emphasis, and `generate_context_doc`. The long template texts are
  kept only as far as the code looks into them: their `## ` headings, the
  marker the framework block replaces, and the places where arguments are
  interpolated.
*/
module Generator {
  import opened Wrappers
  import opened Json
  import Text

  // ---------------------------------------------------------------------------
  // splitting markdown at its `## ` headings

  /**
    `s.split(/^## /m)` for the text `s` that follows either the start of the
    input or a line terminator (`bol`), or neither: the pieces between the
    headings, each heading's `## ` dropped.
  */
  function CutHeadings(s: string, bol: bool): (r: seq<string>)
    ensures |r| >= 1
    decreases |s|
  {
    if |s| == 0 then [""]
    else if bol && Text.StartsWith(s, "## ") then [""] + CutHeadings(s[3..], false)
    else
      var rest := CutHeadings(s[1..], Text.IsLineTerminator(s[0]));
      [[s[0]] + rest[0]] + rest[1..]
  }

  function SplitHeadings(s: string): seq<string> {
    CutHeadings(s, true)
  }

  /** No line of `s` starts with `## `. */
  predicate HeadingFree(s: string, bol: bool)
    decreases |s|
  {
    |s| == 0 || (!(bol && Text.StartsWith(s, "## ")) && HeadingFree(s[1..], Text.IsLineTerminator(s[0])))
  }

  /** Whether the text after `s` starts a line. */
  function EndsLine(s: string, bol: bool): bool {
    if |s| == 0 then bol else Text.IsLineTerminator(s[|s| - 1])
  }

  /** A line cannot begin in `a` and continue as a heading in `b`. */
  predicate NoStraddle(a: string, b: string) {
    |a| == 0 || |b| == 0 || Text.IsLineTerminator(a[|a| - 1]) || Text.IsLineTerminator(b[0])
  }

  lemma JoinPrepend(c: char, x: string, xs: seq<string>, sep: string)
    ensures Text.Join([[c] + x] + xs, sep) == [c] + Text.Join([x] + xs, sep)
  {
    if |xs| > 0 {
      Text.JoinCons([c] + x, xs, sep);
      Text.JoinCons(x, xs, sep);
    }
  }

  /** Putting the headings back between the pieces gives the text again. */
  lemma {:induction false} JoinCutHeadings(s: string, bol: bool)
    ensures Text.Join(CutHeadings(s, bol), "## ") == s
    decreases |s|
  {
    if |s| == 0 {
    } else if bol && Text.StartsWith(s, "## ") {
      JoinCutHeadings(s[3..], false);
      Text.JoinCons("", CutHeadings(s[3..], false), "## ");
      assert s == s[..3] + s[3..];
    } else {
      var rest := CutHeadings(s[1..], Text.IsLineTerminator(s[0]));
      JoinCutHeadings(s[1..], Text.IsLineTerminator(s[0]));
      JoinPrepend(s[0], rest[0], rest[1..], "## ");
      assert [rest[0]] + rest[1..] == rest;
      assert [s[0]] + s[1..] == s;
    }
  }

  /** Text without a `#` has no heading. */
  lemma {:induction false} NoHashHeadingFree(s: string, bol: bool)
    requires '#' !in s
    ensures HeadingFree(s, bol)
    decreases |s|
  {
    if |s| > 0 {
      assert s[0] != '#';
      NoHashHeadingFree(s[1..], Text.IsLineTerminator(s[0]));
    }
  }

  /** A heading at the start of `a + b` is a heading at the start of `a`. */
  lemma StraddleFree(a: string, b: string)
    requires |a| > 0 && NoStraddle(a, b)
    ensures Text.StartsWith(a + b, "## ") ==> Text.StartsWith(a, "## ")
  {
    var s := a + b;
    if |a| >= 3 {
      assert a[..3] == s[..3];
    } else if |s| >= 3 {
      assert s[|a| - 1] == a[|a| - 1];
      assert s[|a|] == b[0];
    }
  }

  /** Two heading-free texts that meet at a line break, or not inside a line, are heading-free together. */
  lemma {:induction false} HeadingFreeAppend(a: string, b: string, bol: bool)
    requires HeadingFree(a, bol) && HeadingFree(b, EndsLine(a, bol)) && NoStraddle(a, b)
    ensures HeadingFree(a + b, bol)
    decreases |a|
  {
    if |a| == 0 {
      assert a + b == b;
    } else {
      var s := a + b;
      assert s[0] == a[0];
      StraddleFree(a, b);
      assert s[1..] == a[1..] + b;
      HeadingFreeAppend(a[1..], b, Text.IsLineTerminator(a[0]));
    }
  }

  /** A heading-free text is one piece. */
  lemma {:induction false} CutHeadingFree(s: string, bol: bool)
    requires HeadingFree(s, bol)
    ensures CutHeadings(s, bol) == [s]
    decreases |s|
  {
    if |s| > 0 {
      CutHeadingFree(s[1..], Text.IsLineTerminator(s[0]));
      assert [s[0]] + s[1..] == s;
    }
  }

  /** A heading-free front `a` joins the first piece of what follows it. */
  lemma {:induction false} CutAppend(a: string, b: string, bol: bool)
    requires HeadingFree(a, bol) && NoStraddle(a, b)
    ensures var r := CutHeadings(b, EndsLine(a, bol));
      CutHeadings(a + b, bol) == [a + r[0]] + r[1..]
    decreases |a|
  {
    var r := CutHeadings(b, EndsLine(a, bol));
    if |a| == 0 {
      assert a + b == b;
      assert "" + r[0] == r[0];
      assert [r[0]] + r[1..] == r;
    } else {
      var s := a + b;
      assert s[0] == a[0];
      StraddleFree(a, b);
      assert !(bol && Text.StartsWith(s, "## "));
      assert s[1..] == a[1..] + b;
      assert EndsLine(a[1..], Text.IsLineTerminator(a[0])) == EndsLine(a, bol);
      CutAppend(a[1..], b, Text.IsLineTerminator(a[0]));
      var rest := CutHeadings(s[1..], Text.IsLineTerminator(s[0]));
      assert CutHeadings(s, bol) == [[s[0]] + rest[0]] + rest[1..];
      PrependPiece(a[0], a[1..], r);
      assert [a[0]] + a[1..] == a;
    }
  }

  /** A character put before the first piece of `[x + r[0]] + r[1..]`. */
  lemma PrependPiece(c: char, x: string, r: seq<string>)
    requires |r| >= 1
    ensures var rest := [x + r[0]] + r[1..];
      [[c] + rest[0]] + rest[1..] == [[c] + x + r[0]] + r[1..]
  {
    var rest := [x + r[0]] + r[1..];
    assert rest[0] == x + r[0] && rest[1..] == r[1..];
    assert [c] + (x + r[0]) == [c] + x + r[0];
  }

  /** `.filter(Boolean)` on the pieces: the non-empty ones, in order. */
  function NonEmptyPieces(xs: seq<string>): (r: seq<string>)
    ensures |r| <= |xs|
    ensures forall i :: 0 <= i < |r| ==> r[i] != ""
    decreases |xs|
  {
    if |xs| == 0 then [] else (if xs[0] != "" then [xs[0]] else []) + NonEmptyPieces(xs[1..])
  }

  /** The sections of a markdown text. */
  function Sections(s: string): seq<string> {
    NonEmptyPieces(SplitHeadings(s))
  }

  // ---------------------------------------------------------------------------
  // one section as a key and a value

  datatype Entry = Entry(key: string, content: string)

  /** The title line with its leading `#`s, then its leading whitespace, dropped. */
  function StripHeadingMarks(line: string): string
    decreases |line|
  {
    if |line| > 0 && line[0] == '#' then StripHeadingMarks(line[1..]) else Text.TrimStart(line)
  }

  /** `title.toLowerCase().replace(/\s+/g, '_')`. */
  function KeyOf(title: string): string {
    Text.ReplaceSpaceRuns(Text.Lower(title), "_")
  }

  /** The title is the first line of the trimmed section, the content the other lines, trimmed. */
  function ConvertSection(section: string): Entry {
    var lines := Text.Split(Text.Trim(section), '\n');
    Entry(KeyOf(StripHeadingMarks(lines[0])), Text.Trim(Text.Join(lines[1..], "\n")))
  }

  /** Trimming the end of `a + b` keeps `a` whole unless `b` is all whitespace. */
  lemma {:induction false} TrimEndAppend(a: string, b: string)
    ensures Text.TrimEnd(b) != "" ==> Text.TrimEnd(a + b) == a + Text.TrimEnd(b)
    ensures Text.TrimEnd(b) == "" ==> Text.TrimEnd(a + b) == Text.TrimEnd(a)
    decreases |b|
  {
    if |b| == 0 {
      assert a + b == a;
    } else {
      var s := a + b;
      assert s[|s| - 1] == b[|b| - 1];
      assert s[..|s| - 1] == a + b[..|b| - 1];
      if Text.IsSpace(b[|b| - 1]) {
        TrimEndAppend(a, b[..|b| - 1]);
      }
    }
  }

  /** Trimming a section that starts with a non-blank title line trims only its body's end. */
  lemma TrimSection(title: string, body: string)
    requires title != "" && !Text.IsSpace(title[0]) && !Text.IsSpace(title[|title| - 1])
    ensures Text.TrimEnd(body) == "" ==> Text.Trim(title + "\n" + body) == title
    ensures Text.TrimEnd(body) != "" ==> Text.Trim(title + "\n" + body) == title + "\n" + Text.TrimEnd(body)
  {
    var s := title + "\n" + body;
    assert s[0] == title[0];
    Text.TrimStartNoSpace(s);
    TrimEndAppend(title + "\n", body);
    TrimEndAppend(title, "\n");
  }

  /** The trimmed body is the trimmed body with its trailing whitespace already gone. */
  lemma TrimBody(body: string)
    ensures Text.Trim(body) == Text.Trim(Text.TrimEnd(body))
  {
    var e := Text.TrimEnd(body);
    var w := body[|e|..];
    assert body == "" + e + w;
    Text.TrimPadded("", e, w);
  }

  /**
    A section `title` + newline + `body`, with a one-line title that neither
    starts with `#` nor has whitespace at its ends, converts to the title's
    key and the trimmed body.
  */
  lemma SectionOf(title: string, body: string)
    requires title != "" && '\n' !in title && title[0] != '#'
    requires !Text.IsSpace(title[0]) && !Text.IsSpace(title[|title| - 1])
    ensures ConvertSection(title + "\n" + body) == Entry(KeyOf(title), Text.Trim(body))
  {
    var lines := Text.Split(Text.Trim(title + "\n" + body), '\n');
    SectionLines(title, body);
    Text.TrimStartNoSpace(title);
    assert StripHeadingMarks(title) == title;
    TrimBody(body);
    var e := Text.TrimEnd(body);
    if e != "" {
      assert lines[1..] == Text.Split(e, '\n');
      Text.JoinSplit(e, '\n');
    }
  }

  /** The lines of such a trimmed section: the title, then the lines of the body without its trailing whitespace. */
  lemma SectionLines(title: string, body: string)
    requires title != "" && '\n' !in title
    requires !Text.IsSpace(title[0]) && !Text.IsSpace(title[|title| - 1])
    ensures Text.TrimEnd(body) == "" ==> Text.Split(Text.Trim(title + "\n" + body), '\n') == [title]
    ensures Text.TrimEnd(body) != "" ==>
      Text.Split(Text.Trim(title + "\n" + body), '\n') == [title] + Text.Split(Text.TrimEnd(body), '\n')
  {
    TrimSection(title, body);
    if Text.TrimEnd(body) == "" {
      Text.SplitNoSep(title, '\n');
    } else {
      Text.SplitAtSep(title, '\n', Text.TrimEnd(body));
    }
  }

  // ---------------------------------------------------------------------------
  // the sections object

  /** `object[key] = value`: a present key keeps its place and takes the new value; a new key goes last. */
  function Assign(fields: seq<Field>, key: string, value: Json): (r: seq<Field>)
    ensures |r| == if Get(fields, key).Some? then |fields| else |fields| + 1
    ensures forall i :: 0 <= i < |fields| ==> r[i].key == fields[i].key
    ensures Get(fields, key).None? ==> r[|fields|].key == key
    decreases |fields|
  {
    if |fields| == 0 then [Field(key, value)]
    else if fields[0].key == key then [Field(key, value)] + fields[1..]
    else [fields[0]] + Assign(fields[1..], key, value)
  }

  /** After the assignment `key` reads `value`, and every other key reads what it did before. */
  lemma {:induction false} AssignGet(fields: seq<Field>, key: string, value: Json, k: string)
    ensures Get(Assign(fields, key, value), k) == if k == key then Some(value) else Get(fields, k)
    decreases |fields|
  {
    if |fields| > 0 && fields[0].key != key {
      AssignGet(fields[1..], key, value, k);
      assert ([fields[0]] + Assign(fields[1..], key, value))[1..] == Assign(fields[1..], key, value);
    }
  }

  /** Assigning keeps the keys distinct. */
  lemma AssignDistinct(fields: seq<Field>, key: string, value: Json)
    requires DistinctKeys(fields)
    ensures DistinctKeys(Assign(fields, key, value))
  {
    var r := Assign(fields, key, value);
    forall i, j | 0 <= i < j < |r| ensures r[i].key != r[j].key {
      if j == |fields| {
        assert fields[i].key != key;
      }
    }
  }

  /** The key whose assignment reaches the `Object.prototype` setter instead of creating a property. */
  const ProtoKey := "__proto__"

  /**
    `obj[key] = value` for a string `value`: a data property is set, except
    for `__proto__`, whose inherited setter ignores a value that is not an
    object and creates no property.
  */
  function SetProperty(fields: seq<Field>, key: string, value: Json): (r: seq<Field>)
    requires value.JStr?
    ensures key == ProtoKey ==> r == fields
    ensures key != ProtoKey ==> r == Assign(fields, key, value)
  {
    if key == ProtoKey then fields else Assign(fields, key, value)
  }

  /** Every section converted. */
  function Converted(sections: seq<string>): (r: seq<Entry>)
    ensures |r| == |sections|
    ensures forall i :: 0 <= i < |sections| ==> r[i] == ConvertSection(sections[i])
  {
    seq(|sections|, i requires 0 <= i < |sections| => ConvertSection(sections[i]))
  }

  /** The object the entries are assigned into, one after the other. */
  function ObjectOf(entries: seq<Entry>): seq<Field>
    decreases |entries|
  {
    if |entries| == 0 then []
    else
      var e := entries[|entries| - 1];
      SetProperty(ObjectOf(entries[..|entries| - 1]), e.key, JStr(e.content))
  }

  /** The `sections` object after the `forEach` over the given sections. */
  function SectionsObject(sections: seq<string>): seq<Field> {
    ObjectOf(Converted(sections))
  }

  lemma SectionsObjectStep(sections: seq<string>, i: nat)
    requires i < |sections|
    ensures var e := ConvertSection(sections[i]);
      SectionsObject(sections[..i + 1]) == SetProperty(SectionsObject(sections[..i]), e.key, JStr(e.content))
  {
    var c := Converted(sections[..i + 1]);
    assert c[..i] == Converted(sections[..i]);
    assert c[i] == ConvertSection(sections[i]);
  }

  /** The content of the last entry whose key is `key`. */
  function LastWith(entries: seq<Entry>, key: string): (r: Option<string>)
    decreases |entries|
  {
    if |entries| == 0 then None
    else
      var e := entries[|entries| - 1];
      if e.key == key then Some(e.content) else LastWith(entries[..|entries| - 1], key)
  }

  /** Each key is in the object once. */
  lemma {:induction false} ObjectDistinct(entries: seq<Entry>)
    ensures DistinctKeys(ObjectOf(entries))
    decreases |entries|
  {
    if |entries| > 0 {
      var init := entries[..|entries| - 1];
      var e := entries[|entries| - 1];
      ObjectDistinct(init);
      if e.key != ProtoKey {
        AssignDistinct(ObjectOf(init), e.key, JStr(e.content));
      }
    }
  }

  /**
    The object holds a key other than `__proto__` exactly when some entry
    has it, and its value is the content of the LAST entry with that key: a
    later duplicate overwrites an earlier one. `__proto__` is never held.
  */
  lemma {:induction false} ObjectLastWins(entries: seq<Entry>, key: string)
    ensures key == ProtoKey ==> Get(ObjectOf(entries), key) == None
    ensures key != ProtoKey ==>
      Get(ObjectOf(entries), key) == if LastWith(entries, key).Some? then Some(JStr(LastWith(entries, key).value)) else None
    decreases |entries|
  {
    if |entries| > 0 {
      var init := entries[..|entries| - 1];
      var e := entries[|entries| - 1];
      ObjectLastWins(init, key);
      if e.key != ProtoKey {
        AssignGet(ObjectOf(init), e.key, JStr(e.content), key);
      }
    }
  }

  /** The reference finds the last entry with the key, and finds one exactly when there is one. */
  lemma {:induction false} LastWithFound(entries: seq<Entry>, key: string)
    ensures LastWith(entries, key).None? <==> forall i :: 0 <= i < |entries| ==> entries[i].key != key
    ensures LastWith(entries, key).Some? ==> exists i :: 0 <= i < |entries| && entries[i] == Entry(key, LastWith(entries, key).value) && forall j :: i < j < |entries| ==> entries[j].key != key
    decreases |entries|
  {
    if |entries| > 0 {
      var n := |entries| - 1;
      var init := entries[..n];
      LastWithFound(init, key);
      if entries[n].key != key {
        assert forall i :: 0 <= i < n ==> init[i] == entries[i];
        if LastWith(init, key).Some? {
          var i :| 0 <= i < |init| && init[i] == Entry(key, LastWith(init, key).value) && forall j :: i < j < |init| ==> init[j].key != key;
          assert forall j :: i < j < |entries| ==> entries[j].key != key;
        }
      }
    }
  }

  /**
    The sections object, section by section: distinct keys, each with its
    last section's content, and never `__proto__`.
  */
  lemma SectionsObjectReads(sections: seq<string>, key: string)
    ensures DistinctKeys(SectionsObject(sections))
    ensures key == ProtoKey ==> Get(SectionsObject(sections), key).None?
    ensures key != ProtoKey ==>
      (Get(SectionsObject(sections), key).None? <==> forall i :: 0 <= i < |sections| ==> ConvertSection(sections[i]).key != key)
    ensures Get(SectionsObject(sections), key).Some? ==> exists i :: (0 <= i < |sections|
      && Get(SectionsObject(sections), key) == Some(JStr(ConvertSection(sections[i]).content))
      && ConvertSection(sections[i]).key == key
      && forall j :: i < j < |sections| ==> ConvertSection(sections[j]).key != key)
  {
    var c := Converted(sections);
    ObjectDistinct(c);
    ObjectLastWins(c, key);
    LastWithFound(c, key);
  }

  /** A key some section converts to is in the sections object, unless it is `__proto__`. */
  lemma SectionKeyPresent(sections: seq<string>, i: nat, key: string)
    requires i < |sections| && ConvertSection(sections[i]).key == key
    ensures Get(SectionsObject(sections), key).Some? <==> key != ProtoKey
  {
    SectionsObjectReads(sections, key);
  }

  const PrdDocumentTitle := "Product Requirements Document"

  /** The `json` form of a PRD: a title and the sections object. */
  function PrdJson(prd: string): Json {
    JObj([Field("title", JStr(PrdDocumentTitle)), Field("sections", JObj(SectionsObject(Sections(prd))))])
  }

  /** The conversion loop: `sections.forEach(section => { ...; jsonPRD.sections[key] = content; })`. */
  method ConvertToJson(prd: string) returns (j: Json)
    ensures j == PrdJson(prd)
  {
    var sections := Sections(prd);
    var obj: seq<Field> := [];
    var i := 0;
    assert sections[..0] == [];
    assert Converted([]) == [];
    while i < |sections|
      invariant 0 <= i <= |sections|
      invariant obj == SectionsObject(sections[..i])
    {
      var e := ConvertSection(sections[i]);
      SectionsObjectStep(sections, i);
      obj := SetProperty(obj, e.key, JStr(e.content));
      i := i + 1;
    }
    assert sections[..|sections|] == sections;
    j := JObj([Field("title", JStr(PrdDocumentTitle)), Field("sections", JObj(obj))]);
  }

  // ---------------------------------------------------------------------------
  // generate_prd

  const PrdTitleText := "Product Requirements Document (PRD)\n\n"

  /** The first line of the PRD and the blank line after it. */
  const PrdTitleBlock := "# " + PrdTitleText

  /**
    The template's fixed sections after Context, from Problem Statement to
    Appendix, without the `## ` that starts the first of them.
  */
  function PrdFixedText(): string {
    "Problem Statement\n"
    + "[Define the specific problem this product/feature aims to solve based on the context and requirements]\n"
    + "\n"
    + "## Target Users\n"
    + "- Primary: [Define primary user group]\n"
    + "- Secondary: [Define secondary user groups if applicable]\n"
    + "\n"
    + "## Goals & Objectives\n"
    + "### Business Goals\n"
    + "- [Goal 1]\n"
    + "- [Goal 2]\n"
    + "- [Goal 3]\n"
    + "\n"
    + "### User Goals\n"
    + "- [User Goal 1]\n"
    + "- [User Goal 2]\n"
    + "- [User Goal 3]\n"
    + "\n"
    + "## Functional Requirements\n"
    + "### Core Features\n"
    + "1. **[Feature Name]**\n"
    + "   - Description: [Detailed description]\n"
    + "   - User Story: As a [user type], I want to [action] so that [benefit]\n"
    + "   - Acceptance Criteria:\n"
    + "     - [ ] [Criterion 1]\n"
    + "     - [ ] [Criterion 2]\n"
    + "\n"
    + "2. **[Feature Name]**\n"
    + "   - Description: [Detailed description]\n"
    + "   - User Story: As a [user type], I want to [action] so that [benefit]\n"
    + "   - Acceptance Criteria:\n"
    + "     - [ ] [Criterion 1]\n"
    + "     - [ ] [Criterion 2]\n"
    + "\n"
    + "### API Requirements\n"
    + "- **Endpoint 1**: [Method] /api/[endpoint]\n"
    + "  - Purpose: [Description]\n"
    + "  - Request: [Schema]\n"
    + "  - Response: [Schema]\n"
    + "\n"
    + "## Non-Functional Requirements\n"
    + "### Performance\n"
    + "- [Requirement 1: e.g., Response time < 200ms]\n"
    + "- [Requirement 2: e.g., Support 10k concurrent users]\n"
    + "\n"
    + "### Security\n"
    + "- [Security requirement 1]\n"
    + "- [Security requirement 2]\n"
    + "\n"
    + "### Scalability\n"
    + "- [Scalability requirement 1]\n"
    + "- [Scalability requirement 2]\n"
    + "\n"
    + "## Technical Architecture\n"
    + "### Technology Stack\n"
    + "- Frontend: [Technologies]\n"
    + "- Backend: [Technologies]\n"
    + "- Database: [Technologies]\n"
    + "- Infrastructure: [Technologies]\n"
    + "\n"
    + "### System Architecture\n"
    + "[High-level architecture description]\n"
    + "\n"
    + "## Success Metrics\n"
    + "- **Metric 1**: [Definition and target]\n"
    + "- **Metric 2**: [Definition and target]\n"
    + "- **Metric 3**: [Definition and target]\n"
    + "\n"
    + "## Timeline & Milestones\n"
    + "- **Phase 1**: [Description] - [Timeline]\n"
    + "- **Phase 2**: [Description] - [Timeline]\n"
    + "- **Phase 3**: [Description] - [Timeline]\n"
    + "\n"
    + "## Risks & Mitigation\n"
    + "| Risk | Impact | Probability | Mitigation Strategy |\n"
    + "|------|--------|-------------|-------------------|\n"
    + "| [Risk 1] | High/Medium/Low | High/Medium/Low | [Strategy] |\n"
    + "| [Risk 2] | High/Medium/Low | High/Medium/Low | [Strategy] |\n"
    + "\n"
    + "## Open Questions\n"
    + "- [ ] [Question 1]\n"
    + "- [ ] [Question 2]\n"
    + "- [ ] [Question 3]\n"
    + "\n"
    + "## Appendix\n"
    + "### Glossary\n"
    + "- **Term 1**: Definition\n"
    + "- **Term 2**: Definition\n"
    + "\n"
    + "### References\n"
    + "- [Reference 1]\n"
    + "- [Reference 2]\n"
  }

  /** The titles of the two sections the PRD fills in. */
  const OverviewTitle := "Overview"
  const ContextTitle := "Context"

  /** The text of a filled-in section after its `## `: the title line, the text and a blank line. */
  function Labelled(title: string, x: string): string {
    title + "\n" + x + "\n\n"
  }

  /** The PRD layout: title, Overview with the prompt, Context with the context, then `## ` and the rest. */
  function PrdAround(context: string, prompt: string, rest: string): string {
    PrdTitleBlock + "## " + Labelled(OverviewTitle, prompt) + "## " + Labelled(ContextTitle, context) + "## " + rest
  }

  /** The PRD template with the prompt under Overview and the context under Context. */
  function GeneratePrd(context: string, prompt: string): string {
    PrdAround(context, prompt, PrdFixedText())
  }

  lemma NonEmptyPiecesAppend(xs: seq<string>, ys: seq<string>)
    ensures NonEmptyPieces(xs + ys) == NonEmptyPieces(xs) + NonEmptyPieces(ys)
    decreases |xs|
  {
    if |xs| > 0 {
      assert (xs + ys)[1..] == xs[1..] + ys;
      NonEmptyPiecesAppend(xs[1..], ys);
    } else {
      assert xs + ys == ys;
    }
  }

  /** A filled-in section is heading-free when its title has no `#` and its text no heading. */
  lemma LabelledFree(title: string, x: string)
    requires '#' !in title
    requires HeadingFree(x, true)
    ensures HeadingFree(Labelled(title, x), false)
  {
    var lead := title + "\n";
    assert '#' !in lead;
    NoHashHeadingFree(lead, false);
    NoHashHeadingFree("\n\n", EndsLine(x, true));
    HeadingFreeAppend(x, "\n\n", true);
    HeadingFreeAppend(lead, x + "\n\n", false);
    Regroup(lead, x, "\n\n");
  }

  /** The text after a heading marker, as its piece begins. */
  lemma CutAtHeading(s: string)
    requires Text.StartsWith(s, "## ")
    ensures CutHeadings(s, true) == [""] + CutHeadings(s[3..], false)
  {
  }

  /** A title line `# ...` and the text after it have no heading when the text has no `#`. */
  lemma HashTitleFree(r: string)
    requires '#' !in r
    ensures HeadingFree("# " + r, true)
  {
    var s := "# " + r;
    NoHashHeadingFree(s[1..], false);
    assert s[1..] == " " + r;
    assert s[1] == ' ';
  }

  lemma PrdTitleFree()
    ensures HeadingFree(PrdTitleBlock, true)
  {
    assert '#' !in PrdTitleText;
    HashTitleFree(PrdTitleText);
  }

  /** A heading-free block that ends a line, followed by a heading, is a piece of its own. */
  lemma BlockBeforeHeading(x: string, tail: string, bol: bool)
    requires |x| > 0 && HeadingFree(x, bol) && Text.IsLineTerminator(x[|x| - 1])
    requires Text.StartsWith(tail, "## ")
    ensures CutHeadings(x + tail, bol) == [x] + CutHeadings(tail[3..], false)
  {
    CutAtHeading(tail);
    CutAppend(x, tail, bol);
    assert x + "" == x;
  }

  lemma JoinedRegroup(t: string, o: string, c: string, tail: string)
    ensures t + "## " + o + "## " + c + tail == t + ("## " + (o + ("## " + (c + tail))))
  {
  }

  /** Three heading-free blocks, each ending a line, joined by headings and followed by a heading. */
  lemma SectionsAround(t: string, o: string, c: string, tail: string)
    requires |t| > 0 && |o| > 0 && |c| > 0
    requires HeadingFree(t, true) && HeadingFree(o, false) && HeadingFree(c, false)
    requires Text.IsLineTerminator(t[|t| - 1]) && Text.IsLineTerminator(o[|o| - 1]) && Text.IsLineTerminator(c[|c| - 1])
    requires Text.StartsWith(tail, "## ")
    ensures Sections(t + "## " + o + "## " + c + tail) == [t, o, c] + Sections(tail)
  {
    JoinedRegroup(t, o, c, tail);
    CutThree(t, o, c, tail);
    PiecesThenHeading([t, o, c], tail);
  }

  /** The pieces of three such blocks: the blocks, then the pieces after the final heading. */
  lemma CutThree(t: string, o: string, c: string, tail: string)
    requires |t| > 0 && |o| > 0 && |c| > 0
    requires HeadingFree(t, true) && HeadingFree(o, false) && HeadingFree(c, false)
    requires Text.IsLineTerminator(t[|t| - 1]) && Text.IsLineTerminator(o[|o| - 1]) && Text.IsLineTerminator(c[|c| - 1])
    requires Text.StartsWith(tail, "## ")
    ensures SplitHeadings(t + ("## " + (o + ("## " + (c + tail))))) == [t, o, c] + CutHeadings(tail[3..], false)
  {
    var s0 := "## " + (o + ("## " + (c + tail)));
    CutTwo(o, c, tail);
    BlockBeforeHeading(t, s0, true);
    assert s0[3..] == o + ("## " + (c + tail));
  }

  lemma CutTwo(o: string, c: string, tail: string)
    requires |o| > 0 && |c| > 0
    requires HeadingFree(o, false) && HeadingFree(c, false)
    requires Text.IsLineTerminator(o[|o| - 1]) && Text.IsLineTerminator(c[|c| - 1])
    requires Text.StartsWith(tail, "## ")
    ensures CutHeadings(o + ("## " + (c + tail)), false) == [o, c] + CutHeadings(tail[3..], false)
  {
    var s2 := "## " + (c + tail);
    BlockBeforeHeading(c, tail, false);
    assert s2[3..] == c + tail;
    BlockBeforeHeading(o, s2, false);
  }

  /** Non-empty pieces followed by the pieces after a heading: the pieces, then the sections from that heading on. */
  lemma PiecesThenHeading(ps: seq<string>, tail: string)
    requires forall i :: 0 <= i < |ps| ==> ps[i] != ""
    requires Text.StartsWith(tail, "## ")
    ensures NonEmptyPieces(ps + CutHeadings(tail[3..], false)) == ps + Sections(tail)
  {
    var rest := CutHeadings(tail[3..], false);
    var a := NonEmptyPieces(rest);
    CutAtHeading(tail);
    assert Sections(tail) == NonEmptyPieces([""] + rest);
    NonEmptyPiecesAppend([""], rest);
    assert NonEmptyPieces([""]) == [];
    assert NonEmptyPieces([""] + rest) == a;
    NonEmptyPiecesAppend(ps, rest);
    NonEmptyPiecesKeep(ps);
    assert NonEmptyPieces(ps + rest) == ps + a;
  }

  /** Pieces that are all non-empty are kept as they are. */
  lemma {:induction false} NonEmptyPiecesKeep(xs: seq<string>)
    requires forall i :: 0 <= i < |xs| ==> xs[i] != ""
    ensures NonEmptyPieces(xs) == xs
    decreases |xs|
  {
    if |xs| > 0 {
      NonEmptyPiecesKeep(xs[1..]);
    }
  }

  /**
    Split at its headings, a PRD whose prompt and context have no line
    starting with `## ` has the title block, the Overview section holding the
    prompt, the Context section holding the context, and then the template's
    own sections, whatever the prompt and the context are.
  */
  lemma PrdSections(context: string, prompt: string)
    requires HeadingFree(prompt, true) && HeadingFree(context, true)
    ensures Sections(GeneratePrd(context, prompt))
      == [PrdTitleBlock, Labelled(OverviewTitle, prompt), Labelled(ContextTitle, context)] + Sections("## " + PrdFixedText())
  {
    PrdSectionsAround(context, prompt, PrdFixedText());
  }

  /** The same split for any text after the Context section. */
  lemma PrdSectionsAround(context: string, prompt: string, rest: string)
    requires HeadingFree(prompt, true) && HeadingFree(context, true)
    ensures Sections(PrdAround(context, prompt, rest))
      == [PrdTitleBlock, Labelled(OverviewTitle, prompt), Labelled(ContextTitle, context)] + Sections("## " + rest)
  {
    var o := Labelled(OverviewTitle, prompt);
    var c := Labelled(ContextTitle, context);
    PrdTitleFree();
    TitlesPlain();
    LabelledFree(OverviewTitle, prompt);
    LabelledFree(ContextTitle, context);
    assert o[|o| - 1] == '\n' && c[|c| - 1] == '\n';
    SectionsAround(PrdTitleBlock, o, c, "## " + rest);
    Regroup(PrdTitleBlock + "## " + o + "## " + c, "## ", rest);
  }

  /** Both titles are plain words without `#`, whose lower-cased forms are `overview` and `context`. */
  lemma TitlesPlain()
    ensures '#' !in OverviewTitle && '#' !in ContextTitle
    ensures forall i :: 0 <= i < |OverviewTitle| ==> !Text.IsSpace(OverviewTitle[i])
    ensures forall i :: 0 <= i < |ContextTitle| ==> !Text.IsSpace(ContextTitle[i])
    ensures Text.Lower(OverviewTitle) == "overview" && Text.Lower(ContextTitle) == "context"
  {
  }

  /** A title without whitespace gives its lower-cased self as the key. */
  lemma PlainKey(title: string)
    requires forall i :: 0 <= i < |title| ==> !Text.IsSpace(title[i])
    ensures KeyOf(title) == Text.Lower(title)
  {
    var l := Text.Lower(title);
    forall i | 0 <= i < |l| ensures !Text.IsSpace(l[i]) {
      assert l[i] == Text.LowerChar(title[i]);
    }
  }

  /** A filled-in section whose title is one plain word converts to the lower-cased title and the trimmed text. */
  lemma LabelledSection(title: string, x: string)
    requires title != "" && title[0] != '#'
    requires forall i :: 0 <= i < |title| ==> !Text.IsSpace(title[i])
    ensures ConvertSection(Labelled(title, x)) == Entry(Text.Lower(title), Text.Trim(x))
  {
    assert !Text.IsSpace(title[0]) && !Text.IsSpace(title[|title| - 1]);
    PaddedBody(x);
    PlainKey(title);
    SectionOf(title, x + "\n\n");
    Regroup(title + "\n", x, "\n\n");
  }

  /** `Overview` and `Context` become the keys `overview` and `context`; their contents are trimmed. */
  lemma PrdInputSections(context: string, prompt: string)
    ensures ConvertSection(Labelled(OverviewTitle, prompt)) == Entry("overview", Text.Trim(prompt))
    ensures ConvertSection(Labelled(ContextTitle, context)) == Entry("context", Text.Trim(context))
  {
    TitlesPlain();
    LabelledSection(OverviewTitle, prompt);
    LabelledSection(ContextTitle, context);
  }

  lemma Regroup(a: string, b: string, c: string)
    ensures a + b + c == a + (b + c)
  {
  }

  lemma SpacePair(w: string)
    requires w == "\n\n"
    ensures forall i :: 0 <= i < |w| ==> Text.IsSpace(w[i])
  {
    assert Text.IsSpace(w[0]) && Text.IsSpace(w[1]);
  }

  lemma PaddedBody(x: string)
    ensures Text.Trim(x + "\n\n") == Text.Trim(x)
  {
    SpacePair("\n\n");
    Text.TrimSpaceAfter(x, "\n\n");
  }

  /**
    In the `json` form the prompt and the context always have a section of
    their own, whatever the prompt, the context and the text after the
    Context section are: the template's `## Overview` and `## Context` each
    start a line.
  */
  lemma PrdJsonKeys(context: string, prompt: string, rest: string)
    ensures Get(SectionsObject(Sections(PrdAround(context, prompt, rest))), "overview").Some?
    ensures Get(SectionsObject(Sections(PrdAround(context, prompt, rest))), "context").Some?
  {
    OverviewKey(context, prompt, rest);
    ContextKey(context, prompt, rest);
  }

  /** The Overview heading follows the title block's blank line. */
  lemma OverviewKey(context: string, prompt: string, rest: string)
    ensures Get(SectionsObject(Sections(PrdAround(context, prompt, rest))), "overview").Some?
  {
    var s := PrdAround(context, prompt, rest);
    var y := prompt + "\n\n" + "## " + Labelled(ContextTitle, context) + "## " + rest;
    TitlesPlain();
    PlainKey(OverviewTitle);
    PrdLayout(PrdTitleBlock, OverviewTitle, prompt, ContextTitle, context, rest);
    assert PrdTitleBlock[|PrdTitleBlock| - 1] == '\n';
    TitledPieceKey(s, PrdTitleBlock, OverviewTitle, y, "overview");
  }

  /** The Context heading follows the Overview section's blank line. */
  lemma ContextKey(context: string, prompt: string, rest: string)
    ensures Get(SectionsObject(Sections(PrdAround(context, prompt, rest))), "context").Some?
  {
    var s := PrdAround(context, prompt, rest);
    var a := PrdTitleBlock + "## " + Labelled(OverviewTitle, prompt);
    var y := context + "\n\n" + "## " + rest;
    TitlesPlain();
    PlainKey(ContextTitle);
    PrdLayout(PrdTitleBlock, OverviewTitle, prompt, ContextTitle, context, rest);
    assert a[|a| - 1] == '\n';
    TitledPieceKey(s, a, ContextTitle, y, "context");
  }

  /** The PRD layout regrouped at the Overview heading and at the Context heading. */
  lemma PrdLayout(t: string, ot: string, p: string, ct: string, x: string, rest: string)
    ensures var s := t + "## " + Labelled(ot, p) + "## " + Labelled(ct, x) + "## " + rest;
      && s == t + "## " + (ot + "\n" + (p + "\n\n" + "## " + Labelled(ct, x) + "## " + rest))
      && s == (t + "## " + Labelled(ot, p)) + "## " + (ct + "\n" + (x + "\n\n" + "## " + rest))
  {
  }

  /**
    A heading right after a line break, or at the start of the input, cuts
    the text in two: the pieces before it, then the pieces after it.
  */
  lemma {:induction false} CutAfterLine(a: string, b: string, bol: bool)
    requires EndsLine(a, bol)
    ensures CutHeadings(a + "## " + b, bol) == CutHeadings(a, bol) + CutHeadings(b, false)
    decreases |a|
  {
    if |a| == 0 {
      EmptyStep(a, b);
    } else if bol && Text.StartsWith(a, "## ") {
      HeadingTail(a);
      CutAfterLine(a[3..], b, false);
      HeadingStep(a, b);
    } else {
      CharTail(a, bol);
      CutAfterLine(a[1..], b, Text.IsLineTerminator(a[0]));
      CharStep(a, b, bol);
    }
  }

  /** `CutAfterLine` with nothing before the heading. */
  lemma EmptyStep(a: string, b: string)
    requires |a| == 0
    ensures CutHeadings(a + "## " + b, true) == CutHeadings(a, true) + CutHeadings(b, false)
  {
    var s := a + "## " + b;
    assert s == "## " + b;
    CutAtHeading(s);
    assert s[3..] == b;
  }

  /** What follows an opening heading of `a` still ends its last line. */
  lemma HeadingTail(a: string)
    requires Text.StartsWith(a, "## ") && EndsLine(a, true)
    ensures |a| > 3 && EndsLine(a[3..], false)
  {
    assert a[..3] == "## ";
    assert a[2] == ' ';
  }

  /** `CutAfterLine` when `a` opens with a heading: both sides drop it. */
  lemma HeadingStep(a: string, b: string)
    requires |a| > 3 && Text.StartsWith(a, "## ")
    requires CutHeadings(a[3..] + "## " + b, false) == CutHeadings(a[3..], false) + CutHeadings(b, false)
    ensures CutHeadings(a + "## " + b, true) == CutHeadings(a, true) + CutHeadings(b, false)
  {
    var s := a + "## " + b;
    var x := CutHeadings(a[3..], false);
    var y := CutHeadings(b, false);
    assert s[..3] == a[..3];
    assert s[3..] == a[3..] + "## " + b;
    assert CutHeadings(s, true) == [""] + (x + y);
    assert [""] + (x + y) == ([""] + x) + y;
  }

  /** After the first character of `a`, the rest still ends its last line. */
  lemma CharTail(a: string, bol: bool)
    requires |a| > 0 && EndsLine(a, bol)
    ensures EndsLine(a[1..], Text.IsLineTerminator(a[0]))
  {
  }

  /** `CutAfterLine` when `a` does not open with a heading: both sides take one character. */
  lemma CharStep(a: string, b: string, bol: bool)
    requires |a| > 0 && EndsLine(a, bol) && !(bol && Text.StartsWith(a, "## "))
    requires var e := Text.IsLineTerminator(a[0]);
      CutHeadings(a[1..] + "## " + b, e) == CutHeadings(a[1..], e) + CutHeadings(b, false)
    ensures CutHeadings(a + "## " + b, bol) == CutHeadings(a, bol) + CutHeadings(b, false)
  {
    var s := a + "## " + b;
    CharSplit(a, b, bol);
    CharShape(s, bol);
    CharShape(a, bol);
    ConsPiece([a[0]], CutHeadings(a[1..], Text.IsLineTerminator(a[0])), CutHeadings(b, false));
  }

  /** A heading placed after `a` does not make `a` open with one. */
  lemma CharSplit(a: string, b: string, bol: bool)
    requires |a| > 0 && EndsLine(a, bol) && !(bol && Text.StartsWith(a, "## "))
    ensures var s := a + "## " + b;
      && !(bol && Text.StartsWith(s, "## "))
      && s[0] == a[0] && s[1..] == a[1..] + "## " + b
  {
    var s := a + "## " + b;
    StraddleFree(a, "## " + b);
    assert s == a + ("## " + b);
    assert s[1..] == a[1..] + "## " + b;
  }

  /** One step of `CutHeadings` at a character that does not open a heading. */
  lemma CharShape(s: string, bol: bool)
    requires |s| > 0 && !(bol && Text.StartsWith(s, "## "))
    ensures var r := CutHeadings(s[1..], Text.IsLineTerminator(s[0]));
      CutHeadings(s, bol) == [[s[0]] + r[0]] + r[1..]
  {
  }

  /** Extending the first piece commutes with appending further pieces. */
  lemma ConsPiece(c: string, x: seq<string>, y: seq<string>)
    requires |x| > 0
    ensures [c + (x + y)[0]] + (x + y)[1..] == ([c + x[0]] + x[1..]) + y
  {
    assert (x + y)[0] == x[0];
    assert (x + y)[1..] == x[1..] + y;
  }

  /**
    A section titled `title` after a line break and a heading marker gives
    its key to the sections object, whatever text follows it.
  */
  lemma TitledPieceKey(s: string, a: string, title: string, y: string, key: string)
    requires s == a + "## " + (title + "\n" + y)
    requires EndsLine(a, true)
    requires title != "" && '#' !in title && '\n' !in title
    requires !Text.IsSpace(title[0]) && !Text.IsSpace(title[|title| - 1])
    requires KeyOf(title) == key && key != ProtoKey
    ensures Get(SectionsObject(Sections(s)), key).Some?
  {
    var lead := title + "\n";
    var b := lead + y;
    CutAfterLine(a, b, true);
    var xs := CutHeadings(a, true);
    var ys := CutHeadings(b, false);
    assert '#' !in lead;
    NoHashHeadingFree(lead, false);
    CutAppend(lead, y, false);
    var z := CutHeadings(y, true)[0];
    assert ys[0] == title + "\n" + z;
    NonEmptyPiecesAppend(xs, ys);
    assert NonEmptyPieces(ys) == [ys[0]] + NonEmptyPieces(ys[1..]);
    var secs := Sections(s);
    var i := |NonEmptyPieces(xs)|;
    assert secs[i] == ys[0];
    SectionOf(title, z);
    KeyAt(secs, i, ys[0], key);
  }

  lemma KeyAt(secs: seq<string>, i: nat, s: string, k: string)
    requires i < |secs| && secs[i] == s && ConvertSection(s).key == k && k != ProtoKey
    ensures Get(SectionsObject(secs), k).Some?
  {
    SectionKeyPresent(secs, i, k);
  }

  datatype PrdArgs = PrdArgs(context: string, prompt: string, format: Option<string>)

  /** The `generate_prd` result for a generated text: the JSON form only for the format `json`, markdown otherwise. */
  function FormatPrd(prd: string, format: Option<string>): Json {
    if format.GetOr("markdown") == "json" then
      JObj([Field("success", JBool(true)), Field("format", JStr("json")), Field("content", PrdJson(prd))])
    else
      JObj([Field("success", JBool(true)), Field("format", JStr("markdown")), Field("content", JStr(prd))])
  }

  /** The `generate_prd` result. */
  function PrdResult(args: PrdArgs): Json {
    FormatPrd(GeneratePrd(args.context, args.prompt), args.format)
  }

  /**
    The result reports success and the format `json` exactly when `json` was
    asked for; then its content is the sections object, and otherwise the
    markdown text itself (an absent format, or any other, gives markdown).
  */
  lemma PrdFormat(prd: string, format: Option<string>)
    ensures FormatPrd(prd, format).JObj?
    ensures Get(FormatPrd(prd, format).fields, "success") == Some(JBool(true))
    ensures Get(FormatPrd(prd, format).fields, "format") == Some(JStr("json")) <==> format == Some("json")
    ensures format == Some("json") ==> Get(FormatPrd(prd, format).fields, "content") == Some(PrdJson(prd))
    ensures format != Some("json") ==> Get(FormatPrd(prd, format).fields, "content") == Some(JStr(prd))
  {
    var fs := FormatPrd(prd, format).fields;
    GetFirstAt(fs, 0);
    GetFirstAt(fs, 1);
    GetFirstAt(fs, 2);
  }
}
