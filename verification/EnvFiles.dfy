/** The two hand-written .env readers, ecosystem.config.cjs and
    dashboard/backend/ecosystem.config.cjs: what each reads from a line, when
    they agree, and when they undo KEY="value". */
module EnvFiles {
  import opened Collections

  datatype Binding = Binding(name: string, value: string)

  // what the regex `.` does not match, besides the \n that ends a line
  predicate Terminator(c: char) { c == '\n' || c == '\r' || c as int == 0x2028 || c as int == 0x2029 }

  predicate Clear(s: string) { forall i :: 0 <= i < |s| ==> !Terminator(s[i]) }

  predicate NameStart(c: char) { 'A' <= c <= 'Z' || 'a' <= c <= 'z' || c == '_' }
  predicate NameChar(c: char) { NameStart(c) || '0' <= c <= '9' }

  predicate IsName(s: string) { s != "" && NameStart(s[0]) && forall i :: 0 <= i < |s| ==> NameChar(s[i]) }

  /** [A-Za-z_][A-Za-z0-9_]*, by character codes. */
  lemma {:induction false} NamesAreSpelled(s: string)
    ensures IsName(s) <==>
              && |s| > 0 && !(48 <= s[0] as int <= 57)
              && forall c :: c in s ==> 48 <= c as int <= 57 || 65 <= c as int <= 90 || c as int == 95 || 97 <= c as int <= 122
  {
    if IsName(s) {
      assert forall c :: c in s ==> NameChar(c);
    } else {
      assert forall i :: 0 <= i < |s| ==> s[i] in s;
    }
  }

  function TakeName(s: string): string {
    if s == "" || !NameChar(s[0]) then "" else [s[0]] + TakeName(s[1..])
  }

  lemma {:induction false} TakeNameIsPrefix(s: string)
    ensures TakeName(s) <= s && forall i :: 0 <= i < |TakeName(s)| ==> NameChar(TakeName(s)[i])
    ensures |TakeName(s)| < |s| ==> !NameChar(s[|TakeName(s)|])
  {
    if s != "" && NameChar(s[0]) { TakeNameIsPrefix(s[1..]); }
  }

  /** ([A-Za-z_][A-Za-z0-9_]*)\s*=\s* and what follows it. */
  function Assignment(s: string): Option<Binding> {
    var name := TakeName(s);
    TakeNameIsPrefix(s);
    if !IsName(name) then None
    else
      var rest := SkipSpaces(s[|name|..]);
      if rest == "" || rest[0] != '=' then None else Some(Binding(name, SkipSpaces(rest[1..])))
  }

  predicate Quoted(v: string) {
    v != "" && ((v[0] == '"' && v[|v| - 1] == '"') || (v[0] == '\'' && v[|v| - 1] == '\''))
  }

  // value.slice(1, -1)
  function Unquote(v: string): string { if |v| <= 1 then "" else v[1..|v| - 1] }

  // value.split(" #")[0]
  function BeforeComment(v: string): string {
    if |v| < 2 then v
    else if v[0] == ' ' && v[1] == '#' then ""
    else [v[0]] + BeforeComment(v[1..])
  }

  predicate HasComment(v: string) {
    exists i :: 0 <= i < |v| - 1 && v[i] == ' ' && v[i + 1] == '#'
  }

  // ----- the root reader -----

  /** The line read as `export NAME = ...`: the keyword, then at least one blank. */
  function Exported(line: string): Option<Binding> {
    var s := SkipSpaces(line);
    if |s| > 6 && s[..6] == "export" && IsSpace(s[6]) then Assignment(SkipSpaces(s[6..])) else None
  }

  // (.*)$ from the first character that is not blank
  function Taken(b: Option<Binding>): Option<Binding> {
    if b.Some? && Clear(b.value.value) then Some(Binding(b.value.name, RootValue(Trim(b.value.value)))) else None
  }

  function RootValue(v: string): string {
    if Quoted(v) then Unquote(v) else Trim(BeforeComment(v))
  }

  /** The optional group is tried first; when the rest then fails, without it. */
  function RootLine(line: string): Option<Binding> {
    var exported := Taken(Exported(line));
    if exported.Some? then exported else Taken(Assignment(SkipSpaces(line)))
  }

  // ----- the dashboard reader -----

  // (.*?)\s*$ : the value without its trailing blanks
  function Kept(b: Option<Binding>): Option<Binding> {
    if b.None? then None
    else
      var v := TrimEnd(b.value.value);
      if !Clear(v) then None else Some(Binding(b.value.name, if Quoted(v) then Unquote(v) else v))
  }

  function DashboardLine(line: string): Option<Binding> { Kept(Assignment(SkipSpaces(line))) }

  // ----- whole files -----

  // text.split("\n")
  function Lines(text: string): (lines: seq<string>)
    ensures lines != []
  {
    if text == "" then [""]
    else
      var rest := Lines(text[1..]);
      if text[0] == '\n' then [""] + rest else [[text[0]] + rest[0]] + rest[1..]
  }

  type Env = map<string, string>

  // out[name] = value; assigning a string to __proto__ does nothing
  function Bind(env: Env, b: Option<Binding>): Env {
    if b.None? || b.value.name == "__proto__" then env else env[b.value.name := b.value.value]
  }

  function ReadLines(read: string -> Option<Binding>, lines: seq<string>): Env {
    if lines == [] then map[] else Bind(ReadLines(read, lines[..|lines| - 1]), read(lines[|lines| - 1]))
  }

  /** readEnvFile, either one: its loop over the lines. */
  method ReadEnvFile(read: string -> Option<Binding>, text: string) returns (env: Env)
    ensures env == ReadLines(read, Lines(text))
  {
    env := map[];
    var lines := Lines(text);
    for i := 0 to |lines|
      invariant env == ReadLines(read, lines[..i])
    {
      assert lines[..i + 1][..i] == lines[..i];
      var found := read(lines[i]);
      if found.None? { continue; }
      if found.value.name != "__proto__" { env := env[found.value.name := found.value.value]; }
    }
    assert lines[..|lines|] == lines;
  }

  predicate BindsTo(read: string -> Option<Binding>, line: string, name: string) {
    read(line).Some? && read(line).value.name == name
  }

  /** A file binds each name to what the last line that binds it says. */
  lemma {:induction false} LastBindingWins(read: string -> Option<Binding>, lines: seq<string>, name: string, i: nat)
    requires i < |lines| && BindsTo(read, lines[i], name) && name != "__proto__"
    requires forall j :: i < j < |lines| ==> !BindsTo(read, lines[j], name)
    ensures At(ReadLines(read, lines), name) == Some(read(lines[i]).value.value)
  {
    if i < |lines| - 1 { LastBindingWins(read, lines[..|lines| - 1], name, i); }
  }

  /** And no other names. */
  lemma {:induction false} OnlyLinesBind(read: string -> Option<Binding>, lines: seq<string>, name: string)
    requires forall i :: 0 <= i < |lines| ==> !BindsTo(read, lines[i], name)
    ensures name !in ReadLines(read, lines)
  {
    if lines != [] { OnlyLinesBind(read, lines[..|lines| - 1], name); }
  }

  function Join(lines: seq<string>): string
    requires lines != []
  {
    if |lines| == 1 then lines[0] else lines[0] + "\n" + Join(lines[1..])
  }

  /** The lines are the text, cut at its newlines. */
  lemma {:induction false} LinesJoin(text: string)
    ensures Join(Lines(text)) == text
    ensures forall line :: line in Lines(text) ==> '\n' !in line
  {
    if text != "" {
      LinesJoin(text[1..]);
      var rest := Lines(text[1..]);
      if text[0] == '\n' {
        assert ([""] + rest)[1..] == rest;
      } else {
        assert ([[text[0]] + rest[0]] + rest[1..])[1..] == rest[1..];
        assert text == [text[0]] + text[1..];
      }
    }
  }

  // ----- the parser is its grammar -----

  /** Text that the pattern NAME \s* = \s* value describes, split as it matches. */
  lemma {:induction false} AssignmentIsItsPattern(name: string, blank1: string, blank2: string, value: string)
    requires IsName(name) && AllSpace(blank1) && AllSpace(blank2)
    requires value == "" || !IsSpace(value[0])
    ensures Assignment(name + blank1 + "=" + blank2 + value) == Some(Binding(name, value))
  {
    var s := name + blank1 + "=" + blank2 + value;
    var tail := blank1 + "=" + blank2 + value;
    assert s == name + tail;
    assert !NameChar(tail[0]) by {
      if blank1 != "" { assert tail[0] == blank1[0] && IsSpace(blank1[0]); } else { assert tail[0] == '='; }
    }
    TakeNameStops(name, tail);
    assert s[|name|..] == tail;
    AfterName(blank1, blank2, value);
  }

  lemma {:induction false} AfterName(blank1: string, blank2: string, value: string)
    requires AllSpace(blank1) && AllSpace(blank2) && (value == "" || !IsSpace(value[0]))
    ensures var rest := SkipSpaces(blank1 + "=" + blank2 + value);
            rest != "" && rest[0] == '=' && SkipSpaces(rest[1..]) == value
  {
    var rest := "=" + blank2 + value;
    assert blank1 + "=" + blank2 + value == blank1 + rest;
    SkipsExactly(blank1, rest);
    assert rest[1..] == blank2 + value;
    SkipsExactly(blank2, value);
  }

  lemma {:induction false} TakeNameStops(name: string, tail: string)
    requires forall i :: 0 <= i < |name| ==> NameChar(name[i])
    requires tail == "" || !NameChar(tail[0])
    ensures TakeName(name + tail) == name
  {
    if name == "" {
      assert name + tail == tail;
    } else {
      assert (name + tail)[1..] == name[1..] + tail;
      TakeNameStops(name[1..], tail);
    }
  }

  lemma {:induction false} SkipsExactly(blank: string, rest: string)
    requires AllSpace(blank) && (rest == "" || !IsSpace(rest[0]))
    ensures SkipSpaces(blank + rest) == rest
  {
    if blank == "" {
      assert blank + rest == rest;
    } else {
      assert (blank + rest)[1..] == blank[1..] + rest;
      SkipsExactly(blank[1..], rest);
    }
  }

  /** And what it accepts is such text. */
  lemma {:induction false} AssignmentSplits(s: string) returns (blank1: string, blank2: string)
    requires Assignment(s).Some?
    ensures var b := Assignment(s).value;
            && IsName(b.name) && AllSpace(blank1) && AllSpace(blank2) && (b.value == "" || !IsSpace(b.value[0]))
            && s == b.name + blank1 + "=" + blank2 + b.value
  {
    var name := TakeName(s);
    TakeNameIsPrefix(s);
    var tail := s[|name|..];
    blank1 := SkippedBlank(tail);
    var rest := SkipSpaces(tail);
    blank2 := SkippedBlank(rest[1..]);
    Glue(s, name, tail, blank1, rest, blank2, SkipSpaces(rest[1..]));
  }

  lemma {:induction false} SkippedBlank(s: string) returns (blank: string)
    ensures AllSpace(blank) && s == blank + SkipSpaces(s) && (SkipSpaces(s) == "" || !IsSpace(SkipSpaces(s)[0]))
  {
    SkipSpacesCuts(s);
    blank := s[..|s| - |SkipSpaces(s)|];
  }

  lemma {:induction false} Glue(s: string, name: string, tail: string, blank1: string, rest: string, blank2: string, value: string)
    requires name <= s && tail == s[|name|..] && tail == blank1 + rest && rest != "" && rest[0] == '=' && rest[1..] == blank2 + value
    ensures s == name + blank1 + "=" + blank2 + value
  {
    assert s == name + tail;
    assert rest == "=" + rest[1..];
  }

  // ----- printing and reading back -----

  function Printed(name: string, value: string): string { name + "=\"" + value + "\"" }

  lemma {:induction false} PrintedAssignment(name: string, value: string)
    requires IsName(name)
    ensures SkipSpaces(Printed(name, value)) == Printed(name, value)
    ensures Assignment(Printed(name, value)) == Some(Binding(name, "\"" + value + "\""))
    ensures Exported(Printed(name, value)) == None
  {
    var line, v := Printed(name, value), "\"" + value + "\"";
    assert line[0] == name[0] && !IsSpace(name[0]);
    assert line == name + "" + "=" + "" + v;
    AssignmentIsItsPattern(name, "", "", v);
    assert !(|line| > 6 && line[..6] == "export" && IsSpace(line[6])) by { NamedExport(name, line); }
  }

  lemma {:induction false} NamedExport(name: string, line: string)
    requires IsName(name) && |name| < |line| && line[..|name|] == name && line[|name|] == '='
    ensures !(|line| > 6 && line[..6] == "export" && IsSpace(line[6]))
  {
    assert '=' !in "export";
    if |name| < 6 {
      assert |line| > 6 ==> line[..6][|name|] == '=';
    } else if |name| > 6 {
      assert line[6] == name[6] && NameChar(name[6]);
    }
  }

  lemma {:induction false} QuotedValue(value: string)
    ensures var v := "\"" + value + "\"";
            && Trim(v) == v && TrimEnd(v) == v && Quoted(v) && Unquote(v) == value && (Clear(v) <==> Clear(value))
  {
    var v := "\"" + value + "\"";
    assert v[0] == '"' && v[|v| - 1] == '"' && v[1..|v| - 1] == value;
    if Clear(v) {
      forall i | 0 <= i < |value| ensures !Terminator(value[i]) { assert v[i + 1] == value[i]; }
    }
  }

  /** Both readers read KEY="value" back as the value exactly when it has no
      line terminator in it; otherwise they read nothing from the line. */
  lemma {:induction false} PrintedLine(name: string, value: string)
    requires IsName(name)
    ensures RootLine(Printed(name, value)) == DashboardLine(Printed(name, value))
    ensures RootLine(Printed(name, value)) == if Clear(value) then Some(Binding(name, value)) else None
  {
    PrintedAssignment(name, value);
    QuotedValue(value);
  }

  lemma {:induction false} OneLine(text: string)
    requires '\n' !in text
    ensures Lines(text) == [text]
  {
    if text != "" {
      assert '\n' !in text[1..];
      OneLine(text[1..]);
      assert [text[0]] + text[1..] == text;
    }
  }

  lemma {:induction false} BindingFromLine(line: string)
    requires '\n' !in line
    ensures RootLine(line).Some? ==> '\n' !in RootLine(line).value.value
    ensures DashboardLine(line).Some? ==> '\n' !in DashboardLine(line).value.value
  {
    if RootLine(line).Some? {
      var b := if Taken(Exported(line)).Some? then Exported(line).value else Assignment(SkipSpaces(line)).value;
      assert Clear(b.value);
      RootValueIsPart(Trim(b.value), b.value);
      assert forall c :: c in RootLine(line).value.value ==> !Terminator(c);
    }
  }

  lemma {:induction false} TrimKeepsClear(s: string)
    requires Clear(s)
    ensures Clear(Trim(s))
  {
    SkipSpacesCuts(s);
    var t := SkipSpaces(s);
    TrimEndCuts(t);
    forall i | 0 <= i < |Trim(s)| ensures !Terminator(Trim(s)[i]) {
      assert Trim(s)[i] == t[i] == s[|s| - |t| + i];
    }
  }

  lemma {:induction false} RootValueIsPart(v: string, whole: string)
    requires v == Trim(whole) && Clear(whole)
    ensures Clear(RootValue(v))
  {
    TrimKeepsClear(whole);
    BeforeCommentIsPrefix(v);
    assert Clear(BeforeComment(v));
    TrimKeepsClear(BeforeComment(v));
  }

  /** What is kept of an unquoted value ends at its first " #", if it has one. */
  lemma {:induction false} BeforeCommentIsPrefix(v: string)
    ensures var kept := BeforeComment(v);
            && kept <= v
            && (kept != v ==> |kept| + 2 <= |v| && v[|kept|] == ' ' && v[|kept| + 1] == '#')
            && forall i :: 0 <= i < |kept| && i + 1 < |v| ==> !(v[i] == ' ' && v[i + 1] == '#')
  {
    if |v| >= 2 && !(v[0] == ' ' && v[1] == '#') {
      BeforeCommentIsPrefix(v[1..]);
      assert v == [v[0]] + v[1..];
      assert forall i :: 0 < i < |v| ==> v[i] == v[1..][i - 1];
    }
  }

  lemma {:induction false} ValuesHaveNoNewline(read: string -> Option<Binding>, lines: seq<string>, name: string)
    requires forall i :: 0 <= i < |lines| ==> read(lines[i]).Some? ==> '\n' !in read(lines[i]).value.value
    ensures name in ReadLines(read, lines) ==> '\n' !in ReadLines(read, lines)[name]
  {
    if lines != [] { ValuesHaveNoNewline(read, lines[..|lines| - 1], name); }
  }

  /** A file holding one printed binding gives the value back, by either reader,
      exactly when the value has no line terminator. */
  lemma {:induction false} PrintedFile(name: string, value: string)
    requires IsName(name) && name != "__proto__"
    ensures var env := ReadLines(RootLine, Lines(Printed(name, value)));
            (name in env && env[name] == value) <==> Clear(value)
    ensures var env := ReadLines(DashboardLine, Lines(Printed(name, value)));
            (name in env && env[name] == value) <==> Clear(value)
  {
    var text := Printed(name, value);
    if '\n' !in value {
      assert '\n' !in text;
      OneLine(text);
      PrintedLine(name, value);
      assert [text][..0] == [];
    } else {
      LinesJoin(text);
      forall i | 0 <= i < |Lines(text)|
        ensures RootLine(Lines(text)[i]).Some? ==> '\n' !in RootLine(Lines(text)[i]).value.value
        ensures DashboardLine(Lines(text)[i]).Some? ==> '\n' !in DashboardLine(Lines(text)[i]).value.value
      {
        BindingFromLine(Lines(text)[i]);
        DashboardNoNewline(Lines(text)[i]);
      }
      ValuesHaveNoNewline(RootLine, Lines(text), name);
      ValuesHaveNoNewline(DashboardLine, Lines(text), name);
      var i :| 0 <= i < |value| && value[i] == '\n';
      assert Terminator(value[i]);
    }
  }

  lemma {:induction false} DashboardNoNewline(line: string)
    ensures DashboardLine(line).Some? ==> '\n' !in DashboardLine(line).value.value
  {
  }

  // ----- when the two readers agree -----

  /** A trailing run of blanks holds a carriage return or such, and nothing before it does. */
  predicate EndsInTerminator(v: string) { !Clear(v) && Clear(TrimEnd(v)) }

  predicate CommentedPlain(v: string) { Clear(v) && !Quoted(TrimEnd(v)) && HasComment(TrimEnd(v)) }

  /** Exactly when the readers read a line alike: it is not an `export`, its
      value is not followed by a carriage return, and it is not an unquoted
      value with " #" in it. */
  lemma {:induction false} LinesAgreeExactly(line: string)
    ensures RootLine(line) == DashboardLine(line) <==>
            && Taken(Exported(line)).None?
            && var b := Assignment(SkipSpaces(line));
               b.Some? ==> !EndsInTerminator(b.value.value) && !CommentedPlain(b.value.value)
  {
    var s := SkipSpaces(line);
    if Taken(Exported(line)).Some? {
      ExportIsNoAssignment(s);
    } else if Assignment(s).Some? {
      var blank1, blank2 := AssignmentSplits(s);
      ReadersOnValue(Assignment(s).value);
    }
  }

  lemma {:induction false} ReadersOnValue(b: Binding)
    requires b.value == "" || !IsSpace(b.value[0])
    ensures Taken(Some(b)) == Kept(Some(b)) <==> !EndsInTerminator(b.value) && !CommentedPlain(b.value)
  {
    var v := b.value;
    var t := TrimEnd(v);
    TrimEndCuts(v);
    if Clear(v) {
      assert Clear(t) && Trim(v) == t;
      if !Quoted(t) { CommentShortens(t); }
    }
  }

  lemma {:induction false} CommentShortens(v: string)
    requires v != "" ==> !IsSpace(v[0]) && !IsSpace(v[|v| - 1])
    ensures Trim(BeforeComment(v)) == v <==> !HasComment(v)
  {
    BeforeCommentIsPrefix(v);
    var c := BeforeComment(v);
    if c == v {
      assert Trim(v) == v;
    } else {
      SkipSpacesCuts(c);
      TrimEndCuts(SkipSpaces(c));
      assert |Trim(c)| < |v|;
    }
  }

  /** After the keyword and a blank comes a name, so `export` is not itself one
      that is being assigned. */
  lemma {:induction false} ExportIsNoAssignment(s: string)
    requires |s| > 6 && s[..6] == "export" && IsSpace(s[6]) && Assignment(SkipSpaces(s[6..])).Some?
    ensures Assignment(s) == None
  {
    assert s == "export" + s[6..];
    TakeNameStops("export", s[6..]);
    var t := SkipSpaces(s[6..]);
    TakeNameIsPrefix(t);
    assert s[|"export"|..] == s[6..];
  }

  /** So on a file without carriage returns (or the two Unicode separators),
      without `export` lines and without " #" in unquoted values, they read the
      same environment. */
  lemma {:induction false} FilesAgree(lines: seq<string>)
    requires forall i :: 0 <= i < |lines| ==>
               && Clear(lines[i]) && Exported(lines[i]).None?
               && var b := Assignment(SkipSpaces(lines[i]));
                  b.Some? ==> Quoted(TrimEnd(b.value.value)) || !HasComment(TrimEnd(b.value.value))
    ensures ReadLines(RootLine, lines) == ReadLines(DashboardLine, lines)
  {
    if lines != [] {
      var line := lines[|lines| - 1];
      FilesAgree(lines[..|lines| - 1]);
      LinesAgreeExactly(line);
      ValueOfClearLine(line);
    }
  }

  lemma {:induction false} ValueOfClearLine(line: string)
    requires Clear(line)
    ensures Assignment(SkipSpaces(line)).Some? ==> Clear(Assignment(SkipSpaces(line)).value.value)
  {
    SkipSpacesCuts(line);
    var s := SkipSpaces(line);
    if Assignment(s).Some? {
      var blank1, blank2 := AssignmentSplits(s);
      var v := Assignment(s).value.value;
      forall i | 0 <= i < |v| ensures !Terminator(v[i]) {
        assert v[i] == s[|s| - |v| + i] == line[|line| - |v| + i];
      }
    }
  }

  /** The root reader cuts an unquoted value at its first " #"; the dashboard's
      reader keeps it whole. */
  lemma {:induction false} CommentIsCut(name: string, kept: string, comment: string)
    requires IsName(name) && kept != "" && !IsSpace(kept[0]) && !IsSpace(kept[|kept| - 1]) && kept[0] !in {'"', '\''}
    requires !HasComment(kept) && Clear(kept) && Clear(comment) && TrimEnd(comment) == comment
    ensures RootLine(name + "=" + kept + " #" + comment) == Some(Binding(name, kept))
    ensures DashboardLine(name + "=" + kept + " #" + comment) == Some(Binding(name, kept + " #" + comment))
  {
    var v := kept + " #" + comment;
    var line := name + "=" + v;
    assert line == name + "=" + kept + " #" + comment;
    assert line == name + "" + "=" + "" + v;
    assert line[0] == name[0] && SkipSpaces(line) == line;
    AssignmentIsItsPattern(name, "", "", v);
    if Taken(Exported(line)).Some? { ExportIsNoAssignment(line); }
    CutAtComment(kept, comment);
  }

  lemma {:induction false} CutAtComment(kept: string, comment: string)
    requires kept != "" && !IsSpace(kept[0]) && !IsSpace(kept[|kept| - 1]) && kept[0] !in {'"', '\''}
    requires !HasComment(kept) && Clear(kept) && Clear(comment) && TrimEnd(comment) == comment
    ensures var v := kept + " #" + comment;
            TrimEnd(v) == v && Trim(v) == v && Clear(v) && !Quoted(v) && RootValue(v) == kept
  {
    var v := kept + " #" + comment;
    assert v[0] == kept[0] && forall i :: 0 <= i < |kept| ==> v[i] == kept[i];
    assert v[|kept|] == ' ' && v[|kept| + 1] == '#';
    assert forall i :: |kept| + 2 <= i < |v| ==> v[i] == comment[i - |kept| - 2];
    BeforeCommentIsPrefix(v);
    var c := BeforeComment(v);
    assert |c| == |kept|;
    assert c == kept;
    assert Trim(kept) == kept;
    if comment != "" { TrimEndCuts(comment); assert v[|v| - 1] == comment[|comment| - 1]; }
  }

  /** An `export` line is read by the root reader as the assignment behind the
      keyword, and by the dashboard's reader not at all. */
  lemma {:induction false} ExportIsRootOnly(blank: string, name: string, value: string)
    requires blank != "" && AllSpace(blank) && Clear(value) && IsName(name)
    requires value != "" ==> !IsSpace(value[0]) && !IsSpace(value[|value| - 1])
    ensures RootLine("export" + blank + name + "=" + value) == Some(Binding(name, RootValue(value)))
    ensures DashboardLine("export" + blank + name + "=" + value) == None
  {
    var rest := name + "=" + value;
    var line := "export" + blank + rest;
    assert line == "export" + blank + name + "=" + value;
    assert line[0] == 'e' && SkipSpaces(line) == line;
    assert line[..6] == "export" && line[6] == blank[0] && line[6..] == blank + rest;
    assert rest[0] == name[0] && !IsSpace(name[0]);
    SkipsExactly(blank, rest);
    assert rest == name + "" + "=" + "" + value;
    AssignmentIsItsPattern(name, "", "", value);
    ExportIsNoAssignment(line);
    assert Trim(value) == value;
  }

  /** On a file with CRLF line ends the root reader drops every binding whose
      value is not empty, which the dashboard reader keeps. */
  lemma {:induction false} CarriageReturnLosesBinding(name: string, value: string)
    requires IsName(name) && value != "" && Clear(value) && !IsSpace(value[0]) && !IsSpace(value[|value| - 1])
    ensures RootLine(name + "=" + value + "\r") == None
    ensures DashboardLine(name + "=" + value + "\r") == Some(Binding(name,
              if value == "\"" || value == "'" then ""
              else if value[0] == value[|value| - 1] && value[0] in {'"', '\''} then value[1..|value| - 1]
              else value))
  {
    var v := value + "\r";
    CarriageReturnRead(name, value);
    var line := name + "=" + v;
    assert line == name + "=" + value + "\r";
    assert line == name + "" + "=" + "" + v;
    assert line[0] == name[0] && SkipSpaces(line) == line;
    AssignmentIsItsPattern(name, "", "", v);
    if Taken(Exported(line)).Some? {
      ExportIsNoAssignment(line);
    }
  }

  lemma {:induction false} CarriageReturnRead(name: string, value: string)
    requires value != "" && Clear(value) && !IsSpace(value[0]) && !IsSpace(value[|value| - 1])
    ensures Taken(Some(Binding(name, value + "\r"))) == None
    ensures Kept(Some(Binding(name, value + "\r"))) ==
            Some(Binding(name,
              if value == "\"" || value == "'" then ""
              else if value[0] == value[|value| - 1] && value[0] in {'"', '\''} then value[1..|value| - 1]
              else value))
  {
    CarriageReturnTrimmed(value);
  }

  lemma {:induction false} CarriageReturnTrimmed(value: string)
    requires value != "" && Clear(value) && !IsSpace(value[0]) && !IsSpace(value[|value| - 1])
    ensures var v := value + "\r"; TrimEnd(v) == value && !Clear(v) && !IsSpace(v[0])
  {
    var v := value + "\r";
    assert v[|v| - 1] == '\r' && v[..|v| - 1] == value && v[0] == value[0];
    assert Terminator(v[|v| - 1]);
  }
}
