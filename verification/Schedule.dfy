/** Schedule expressions: parsing to a normal form, the next occurrence, and catching up. */
module Schedule {
  import opened Domain
  import opened Storage

  // ----- text helpers -----

  /** The characters unicode.IsSpace accepts. */
  predicate IsSpace(c: char) {
    || c == ' ' || '\t' <= c <= '\r' || c == '\U{0085}' || c == '\U{00A0}' || c == '\U{1680}'
    || '\U{2000}' <= c <= '\U{200A}' || c == '\U{2028}' || c == '\U{2029}' || c == '\U{202F}' || c == '\U{205F}'
      || c == '\U{3000}'
  }

  /** By code point: tab to carriage return, the space, and the other spaces and line ends of Unicode. */
  lemma SpacesAre(c: char)
    ensures IsSpace(c) <==>
      c as int in {9, 10, 11, 12, 13, 32, 0x85, 0xA0, 0x1680, 0x2028, 0x2029, 0x202F, 0x205F, 0x3000}
      || 0x2000 <= c as int <= 0x200A
  {
  }

  function TrimLeft(s: string): string {
    if s != [] && IsSpace(s[0]) then TrimLeft(s[1..]) else s
  }

  function TrimRight(s: string): string {
    if s != [] && IsSpace(s[|s| - 1]) then TrimRight(s[..|s| - 1]) else s
  }

  function TrimSpace(s: string): string { TrimRight(TrimLeft(s)) }

  function WordLength(s: string): nat {
    if s == [] || IsSpace(s[0]) then 0 else 1 + WordLength(s[1..])
  }

  lemma {:induction false} WordLengthSplits(s: string)
    ensures WordLength(s) <= |s|
    ensures forall i :: 0 <= i < WordLength(s) ==> !IsSpace(s[i])
    ensures WordLength(s) < |s| ==> IsSpace(s[WordLength(s)])
  {
    if s == [] || IsSpace(s[0]) {
    } else {
      WordLengthSplits(s[1..]);
    }
  }

  /** strings.Fields. */
  function Fields(s: string): seq<string>
    decreases |s|
  {
    WordLengthSplits(s);
    if s == [] then []
    else if IsSpace(s[0]) then Fields(s[1..])
    else [s[..WordLength(s)]] + Fields(s[WordLength(s)..])
  }

  function Join(words: seq<string>): string {
    if words == [] then [] else if |words| == 1 then words[0] else words[0] + " " + Join(words[1..])
  }

  /** strings.ToLower on the letters that can make up a keyword. */
  function Lower(s: string): string {
    if s == [] then [] else [if 'A' <= s[0] <= 'Z' then (s[0] as int + 32) as char else s[0]] + Lower(s[1..])
  }

  predicate IsWord(s: string) {
    s != [] && forall i :: 0 <= i < |s| ==> !IsSpace(s[i])
  }

  predicate AreWords(words: seq<string>) {
    forall i :: 0 <= i < |words| ==> IsWord(words[i])
  }

  lemma {:induction false} FieldsAreWords(s: string)
    ensures AreWords(Fields(s))
    decreases |s|
  {
    WordLengthSplits(s);
    if s == [] {
    } else if IsSpace(s[0]) {
      FieldsAreWords(s[1..]);
    } else {
      FieldsAreWords(s[WordLength(s)..]);
    }
  }

  /** A word at the front of a text, followed by the end or a space, is its first field. */
  lemma {:induction false} WordInFront(word: string, rest: string)
    requires IsWord(word) && (rest == [] || IsSpace(rest[0]))
    ensures WordLength(word + rest) == |word|
    decreases |word|
  {
    assert (word + rest)[1..] == word[1..] + rest;
    if |word| == 1 {
      assert word[1..] + rest == rest;
    } else {
      WordInFront(word[1..], rest);
    }
  }

  /** Splitting undoes joining. */
  lemma {:induction false} FieldsOfJoin(words: seq<string>)
    requires AreWords(words)
    ensures Fields(Join(words)) == words
  {
    if words == [] {
    } else {
      var rest := if |words| == 1 then [] else " " + Join(words[1..]);
      var text := words[0] + rest;
      assert Join(words) == text;
      WordInFront(words[0], rest);
      assert text[..|words[0]|] == words[0] && text[|words[0]|..] == rest;
      FieldsOfJoin(words[1..]);
      if |words| > 1 {
        assert rest[1..] == Join(words[1..]);
      }
    }
  }

  /** Joined words have no space at either end. */
  lemma {:induction false} JoinEnds(words: seq<string>)
    requires AreWords(words) && words != []
    ensures var text := Join(words); text != [] && !IsSpace(text[0]) && !IsSpace(text[|text| - 1])
  {
    if |words| == 1 {
    } else {
      JoinEnds(words[1..]);
    }
  }

  // ----- parsing -----

  datatype Spec = Spec(kind: Kind, expr: string)

  datatype Error =
    | Empty
    | UnsupportedKeyword
    | DurationCount
    | BadDuration
    | NotPositive
    | CronCount
    | BadCron
    | KindMismatch
    | BadTimezone
    | NoNextRun

  datatype Result<+T> = Ok(value: T) | Err(error: Error)

  /** The libraries behind the schedule package: time.ParseDuration, the cron parser with the
      next function of what it parsed, and time.LoadLocation. */
  datatype Library = Library(
    duration: string -> Option<int>,
    cron: string -> Option<(string, Time) -> Time>,
    zone: string -> bool
  )

  function Parse(lib: Library, raw: string): Result<Spec> {
    var trimmed := TrimSpace(raw);
    if trimmed == "" then Err(Empty)
    else
      var fields := Fields(trimmed);
      if |fields| == 0 then Err(Empty)
      else
        var keyword := Lower(fields[0]);
        if keyword == "every" then ParseDuration(lib, Interval, keyword, fields)
        else if keyword == "after" then ParseDuration(lib, Once, keyword, fields)
        else if keyword == "cron" then ParseCron(lib, fields)
        else Err(UnsupportedKeyword)
  }

  function ParseDuration(lib: Library, kind: Kind, keyword: string, fields: seq<string>): Result<Spec> {
    if |fields| != 2 then Err(DurationCount)
    else
      var d := lib.duration(fields[1]);
      if d.None? then Err(BadDuration)
      else if d.value <= 0 then Err(NotPositive)
      else Ok(Spec(kind, keyword + " " + fields[1]))
  }

  function ParseCron(lib: Library, fields: seq<string>): Result<Spec> {
    if |fields| != 6 then Err(CronCount)
    else
      var expr := Join(fields[1..]);
      if lib.cron(expr).None? then Err(BadCron)
      else Ok(Spec(Cron, "cron " + expr))
  }

  // ----- the normal form -----

  /** The words of a normalised expression of each kind. */
  ghost predicate NormalWords(lib: Library, kind: Kind, words: seq<string>) {
    && AreWords(words)
    && match kind
       case Cron => |words| == 6 && words[0] == "cron" && lib.cron(Join(words[1..])).Some?
       case _ =>
         && |words| == 2 && words[0] == (if kind == Interval then "every" else "after")
         && lib.duration(words[1]).Some? && lib.duration(words[1]).value > 0
  }

  lemma JoinPair(a: string, b: string)
    ensures Join([a, b]) == a + " " + b
  {
    assert [a, b][1..] == [b];
  }

  lemma KeywordsAreLower()
    ensures Lower("every") == "every" && Lower("after") == "after" && Lower("cron") == "cron"
  {
    assert Lower("cron") == ['c'] + Lower("ron");
    assert Lower("ron") == ['r'] + Lower("on");
    assert Lower("every") == ['e'] + Lower("very");
    assert Lower("very") == ['v'] + Lower("ery");
    assert Lower("ery") == ['e'] + Lower("ry");
    assert Lower("after") == ['a'] + Lower("fter");
    assert Lower("fter") == ['f'] + Lower("ter");
    assert Lower("ter") == ['t'] + Lower("er");
  }

  lemma TrimNothing(s: string)
    requires s != [] && !IsSpace(s[0]) && !IsSpace(s[|s| - 1])
    ensures TrimSpace(s) == s
  {
  }

  lemma JoinHead(words: seq<string>)
    requires |words| > 1
    ensures Join(words) == words[0] + " " + Join(words[1..])
  {
  }

  lemma NormalParses(lib: Library, kind: Kind, words: seq<string>)
    requires NormalWords(lib, kind, words)
    ensures Parse(lib, Join(words)) == Ok(Spec(kind, Join(words)))
    ensures Fields(Join(words)) == words
  {
    hide Fields, TrimSpace, Join, Lower, AreWords, IsSpace;
    JoinEnds(words);
    FieldsOfJoin(words);
    KeywordsAreLower();
    TrimNothing(Join(words));
    JoinHead(words);
    if kind == Cron {
      assert "cron" + " " == "cron ";
    } else {
      assert words == [words[0], words[1]];
      JoinPair(words[0], words[1]);
    }
  }

  /** What Parse accepts are the words of a normal form, once the keyword is lowered. */
  lemma AcceptedWords(lib: Library, raw: string, fields: seq<string>)
    requires Parse(lib, raw).Ok? && fields == Fields(TrimSpace(raw))
    ensures fields != [] && var words := [Lower(fields[0])] + fields[1..];
      NormalWords(lib, Parse(lib, raw).value.kind, words) && Parse(lib, raw).value.expr == Join(words)
  {
    FieldsAreWords(TrimSpace(raw));
    hide Fields, TrimSpace, Join, IsSpace;
    var words := [Lower(fields[0])] + fields[1..];
    assert words[1..] == fields[1..];
    JoinHead(words);
    LowerWord(fields[0]);
    if |fields| == 2 {
      assert words == [words[0], fields[1]];
      JoinPair(words[0], fields[1]);
    } else {
      assert "cron" + " " == "cron ";
    }
  }

  lemma {:induction false} LowerWord(s: string)
    requires IsWord(s)
    ensures IsWord(Lower(s)) && |Lower(s)| == |s|
  {
    if |s| == 1 {
    } else {
      LowerWord(s[1..]);
    }
  }

  /** What Parse returns is the join of normal words, which are its fields. */
  lemma ParsedIsNormal(lib: Library, raw: string)
    requires Parse(lib, raw).Ok?
    ensures var spec := Parse(lib, raw).value;
      NormalWords(lib, spec.kind, Fields(spec.expr)) && spec.expr == Join(Fields(spec.expr))
  {
    hide Parse, NormalWords, Join;
    var fields := Fields(TrimSpace(raw));
    AcceptedWords(lib, raw, fields);
    NormalParses(lib, Parse(lib, raw).value.kind, [Lower(fields[0])] + fields[1..]);
  }

  /** Parse returns a fixed point of itself. */
  lemma ParseIsIdempotent(lib: Library, raw: string)
    requires Parse(lib, raw).Ok?
    ensures Parse(lib, Parse(lib, raw).value.expr) == Parse(lib, raw)
  {
    ParsedIsNormal(lib, raw);
    NormalParses(lib, Parse(lib, raw).value.kind, Fields(Parse(lib, raw).value.expr));
  }

  // ----- what is accepted, for every text -----

  predicate IsBlank(s: string) {
    forall i :: 0 <= i < |s| ==> IsSpace(s[i])
  }

  /** The text is these words, with spaces between them and any number of spaces around. */
  ghost predicate Spells(raw: string, words: seq<string>)
    decreases |words|
  {
    if words == [] then IsBlank(raw)
    else exists pad, rest | SpellsFirst(raw, pad, words[0], rest) :: Spells(rest, words[1..])
  }

  predicate SpellsFirst(raw: string, pad: string, word: string, rest: string) {
    raw == pad + (word + rest) && IsBlank(pad) && IsWord(word) && (rest == [] || IsSpace(rest[0]))
  }

  lemma {:induction false} PadSkipped(pad: string, text: string)
    requires IsBlank(pad)
    ensures Fields(pad + text) == Fields(text)
  {
    if pad == [] {
      assert pad + text == text;
    } else {
      assert (pad + text)[1..] == pad[1..] + text;
      PadSkipped(pad[1..], text);
    }
  }

  lemma {:induction false} BlankHasNone(s: string)
    requires IsBlank(s)
    ensures Fields(s) == []
  {
    if s == [] {
    } else {
      BlankHasNone(s[1..]);
    }
  }

  lemma FirstField(word: string, rest: string)
    requires IsWord(word) && (rest == [] || IsSpace(rest[0]))
    ensures Fields(word + rest) == [word] + Fields(rest)
  {
    WordInFront(word, rest);
    var text := word + rest;
    assert text[..|word|] == word && text[|word|..] == rest;
  }

  lemma {:induction false} FieldsOfSpelled(raw: string, words: seq<string>)
    requires Spells(raw, words)
    ensures Fields(raw) == words
    decreases |words|
  {
    if words == [] {
      BlankHasNone(raw);
    } else {
      var pad, rest :| SpellsFirst(raw, pad, words[0], rest) && Spells(rest, words[1..]);
      PadSkipped(pad, words[0] + rest);
      FirstField(words[0], rest);
      FieldsOfSpelled(rest, words[1..]);
      hide Fields;
    }
  }

  /** Every text spells its fields. */
  lemma {:induction false} SpellsFields(raw: string)
    ensures Spells(raw, Fields(raw))
    decreases |raw|
  {
    WordLengthSplits(raw);
    if raw == [] {
    } else if IsSpace(raw[0]) {
      SpellsFields(raw[1..]);
      SpaceBefore(raw, Fields(raw));
    } else {
      var n := WordLength(raw);
      SpellsFields(raw[n..]);
      WordBefore(raw[..n], raw[n..], Fields(raw[n..]));
      assert raw == raw[..n] + raw[n..];
    }
  }

  lemma WordBefore(word: string, rest: string, words: seq<string>)
    requires IsWord(word) && (rest == [] || IsSpace(rest[0])) && Spells(rest, words)
    ensures Spells(word + rest, [word] + words)
  {
    var all := [word] + words;
    assert all[0] == word && all[1..] == words;
    assert word + rest == [] + (word + rest);
    assert SpellsFirst(word + rest, [], all[0], rest) && Spells(rest, all[1..]);
  }

  lemma SpaceBefore(raw: string, words: seq<string>)
    requires raw != [] && IsSpace(raw[0]) && Spells(raw[1..], words)
    ensures Spells(raw, words)
  {
    if words != [] {
      var pad, rest :| SpellsFirst(raw[1..], pad, words[0], rest) && Spells(rest, words[1..]);
      assert raw == ([raw[0]] + pad) + (words[0] + rest);
      assert SpellsFirst(raw, [raw[0]] + pad, words[0], rest);
    }
  }

  lemma {:induction false} TrimLeftKeeps(s: string)
    ensures Fields(TrimLeft(s)) == Fields(s) && (TrimLeft(s) == [] <==> IsBlank(s))
  {
    if s == [] || !IsSpace(s[0]) {
    } else {
      TrimLeftKeeps(s[1..]);
      assert IsBlank(s) <==> IsBlank(s[1..]) by {
        assert forall i :: 0 < i < |s| ==> s[i] == s[1..][i - 1];
      }
    }
  }

  /** A space at the end adds no field. */
  lemma {:induction false} SpaceAtEnd(s: string, c: char)
    requires IsSpace(c)
    ensures Fields(s + [c]) == Fields(s)
    decreases |s|
  {
    WordLengthSplits(s);
    if s == [] {
      assert s + [c] == [c];
      BlankHasNone([c]);
    } else if IsSpace(s[0]) {
      assert (s + [c])[1..] == s[1..] + [c];
      SpaceAtEnd(s[1..], c);
    } else {
      var n := WordLength(s);
      var word, rest := s[..n], s[n..];
      assert s == word + rest && s + [c] == word + (rest + [c]);
      FirstField(word, rest);
      FirstField(word, rest + [c]);
      SpaceAtEnd(rest, c);
    }
  }

  lemma {:induction false} TrimRightKeeps(s: string)
    ensures Fields(TrimRight(s)) == Fields(s) && (TrimRight(s) == [] <==> IsBlank(s))
    decreases |s|
  {
    if s == [] || !IsSpace(s[|s| - 1]) {
    } else {
      var front := s[..|s| - 1];
      TrimRightKeeps(front);
      assert s == front + [s[|s| - 1]];
      SpaceAtEnd(front, s[|s| - 1]);
    }
  }

  lemma TrimKeeps(raw: string)
    ensures Fields(TrimSpace(raw)) == Fields(raw) && (TrimSpace(raw) == "" ==> Fields(raw) == [])
  {
    hide TrimLeft, TrimRight;
    TrimLeftKeeps(raw);
    TrimRightKeeps(TrimLeft(raw));
  }

  lemma {:induction false} TrimLeftEnd(s: string)
    requires !IsBlank(s)
    ensures TrimLeft(s) != [] && !IsBlank(TrimLeft(s))
  {
    if IsSpace(s[0]) {
      assert exists i :: 0 <= i < |s[1..]| && !IsSpace(s[1..][i]) by {
        var i :| 0 <= i < |s| && !IsSpace(s[i]);
        assert s[1..][i - 1] == s[i];
      }
      TrimLeftEnd(s[1..]);
    }
  }

  /** Nothing is left exactly of a text of spaces. */
  lemma TrimSpaceIs(s: string)
    ensures TrimSpace(s) == "" <==> IsBlank(s)
  {
    TrimLeftKeeps(s);
    TrimRightKeeps(TrimLeft(s));
    if !IsBlank(s) { TrimLeftEnd(s); }
    hide TrimLeft, TrimRight, Fields;
  }

  /** The keyword in letters of either case. */
  predicate IsKeyword(word: string, keyword: string) {
    |word| == |keyword|
    && forall i :: 0 <= i < |word| ==> word[i] == keyword[i] || word[i] as int == keyword[i] as int - 32
  }

  lemma {:induction false} LoweredIs(word: string, keyword: string)
    requires forall i :: 0 <= i < |keyword| ==> 'a' <= keyword[i] <= 'z'
    ensures Lower(word) == keyword <==> IsKeyword(word, keyword)
  {
    if word == [] || keyword == [] {
    } else {
      LoweredIs(word[1..], keyword[1..]);
      SameTail(Lower(word), keyword);
      KeywordTail(word, keyword);
      hide IsKeyword;
    }
  }

  lemma SameTail(a: string, b: string)
    requires a != [] && b != []
    ensures a == b <==> a[0] == b[0] && a[1..] == b[1..]
  {
    assert a == [a[0]] + a[1..] && b == [b[0]] + b[1..];
  }

  lemma KeywordTail(word: string, keyword: string)
    requires word != [] && keyword != []
    ensures IsKeyword(word, keyword) <==>
      IsKeyword(word[1..], keyword[1..]) && (word[0] == keyword[0] || word[0] as int == keyword[0] as int - 32)
  {
    assert forall i :: 0 < i < |word| ==> word[i] == word[1..][i - 1];
    assert forall i :: 0 < i < |keyword| ==> keyword[i] == keyword[1..][i - 1];
  }

  /** The five fields of a cron expression. */
  function CronFields(words: seq<string>): string
    requires |words| == 5
  {
    words[0] + " " + words[1] + " " + words[2] + " " + words[3] + " " + words[4]
  }

  lemma JoinFive(words: seq<string>)
    requires |words| == 5
    ensures Join(words) == CronFields(words)
  {
    assert words[1..][1..] == words[2..] && words[2..][1..] == words[3..] && words[3..][1..] == words[4..];
    assert Join(words[4..]) == words[4];
    assert Join(words[3..]) == words[3] + " " + words[4];
    assert Join(words[2..]) == words[2] + " " + (words[3] + " " + words[4]);
    assert Join(words[1..]) == words[1] + " " + (words[2] + " " + (words[3] + " " + words[4]));
  }

  /** What is made of a text, whatever its spacing and the case of its keyword. */
  lemma ParseIs(lib: Library, raw: string, words: seq<string>)
    requires Spells(raw, words)
    ensures words == [] ==> Parse(lib, raw) == Err(Empty)
    ensures words != [] && IsKeyword(words[0], "every") ==>
      Parse(lib, raw) == OfDuration(lib, Interval, "every ", words)
    ensures words != [] && IsKeyword(words[0], "after") ==> Parse(lib, raw) == OfDuration(lib, Once, "after ", words)
    ensures words != [] && IsKeyword(words[0], "cron") ==>
      Parse(lib, raw) ==
        if |words| != 6 then Err(CronCount)
        else if lib.cron(CronFields(words[1..])).None? then Err(BadCron)
        else Ok(Spec(Cron, "cron " + CronFields(words[1..])))
    ensures words != [] && !IsKeyword(words[0], "every") && !IsKeyword(words[0], "after")
      && !IsKeyword(words[0], "cron")
      ==> Parse(lib, raw) == Err(UnsupportedKeyword)
  {
    hide Parse, Spells, Join, ParseDuration, ParseCron, OfDuration, CronFields, IsKeyword;
    ParsesBy(lib, raw, words);
    if words != [] {
      KeywordsDiffer(words[0]);
      DurationParsed(lib, Interval, "every", words);
      DurationParsed(lib, Once, "after", words);
      CronParsed(lib, words);
    }
    assert "every" + " " == "every " && "after" + " " == "after ";
  }

  /** A keyword with one positive duration. */
  function OfDuration(lib: Library, kind: Kind, prefix: string, words: seq<string>): Result<Spec> {
    if |words| != 2 then Err(DurationCount)
    else match lib.duration(words[1])
      case None => Err(BadDuration)
      case Some(d) => if d <= 0 then Err(NotPositive) else Ok(Spec(kind, prefix + words[1]))
  }

  lemma ParsesBy(lib: Library, raw: string, words: seq<string>)
    requires Spells(raw, words)
    ensures Parse(lib, raw) ==
      if words == [] then Err(Empty)
      else if IsKeyword(words[0], "every") then ParseDuration(lib, Interval, "every", words)
      else if IsKeyword(words[0], "after") then ParseDuration(lib, Once, "after", words)
      else if IsKeyword(words[0], "cron") then ParseCron(lib, words)
      else Err(UnsupportedKeyword)
  {
    hide Fields, TrimSpace, Lower, Join, IsKeyword, Spells, ParseDuration, ParseCron;
    FieldsOfSpelled(raw, words);
    TrimKeeps(raw);
    if words != [] {
      LoweredIs(words[0], "every");
      LoweredIs(words[0], "after");
      LoweredIs(words[0], "cron");
    }
  }

  lemma DurationParsed(lib: Library, kind: Kind, keyword: string, words: seq<string>)
    ensures ParseDuration(lib, kind, keyword, words) == OfDuration(lib, kind, keyword + " ", words)
  {
  }

  lemma CronParsed(lib: Library, words: seq<string>)
    requires words != []
    ensures ParseCron(lib, words) ==
      if |words| != 6 then Err(CronCount)
      else if lib.cron(CronFields(words[1..])).None? then Err(BadCron)
      else Ok(Spec(Cron, "cron " + CronFields(words[1..])))
  {
    if |words| == 6 { JoinFive(words[1..]); }
    hide Join, CronFields;
  }

  /** One keyword excludes the others. */
  lemma KeywordsDiffer(word: string)
    ensures IsKeyword(word, "every") ==> !IsKeyword(word, "after") && !IsKeyword(word, "cron")
    ensures IsKeyword(word, "after") ==> !IsKeyword(word, "cron")
  {
    if IsKeyword(word, "every") { assert word[0] == 'e' || word[0] == 'E'; }
    if IsKeyword(word, "cron") { assert |word| == 4; }
  }

  // ----- the next occurrence -----

  function TrimPrefix(s: string, prefix: string): string {
    if prefix <= s then s[|prefix|..] else s
  }

  /** A nil location is the local one. */
  function ZoneName(loc: Option<string>): string {
    if loc.Some? then loc.value else "Local"
  }

  function Next(lib: Library, spec: Spec, ref: Time, loc: Option<string>): Result<Time> {
    match Parse(lib, spec.expr)
    case Err(e) => Err(e)
    case Ok(parsed) =>
      if parsed.kind != spec.kind then Err(KindMismatch)
      else if parsed.kind == Cron then
        var cron := lib.cron(TrimPrefix(parsed.expr, "cron "));
        if cron.None? then Err(BadCron) else Ok(cron.value(ZoneName(loc), ref))
      else
        ParsedIsNormal(lib, spec.expr);
        var d := lib.duration(Fields(parsed.expr)[1]);
        if d.None? then Err(BadDuration) else Ok(ref + d.value)
  }

  /** A schedule the parser produced. */
  ghost predicate Parsed(lib: Library, spec: Spec) {
    exists raw :: Parse(lib, raw) == Ok(spec)
  }

  lemma ParsedShape(lib: Library, spec: Spec)
    requires Parsed(lib, spec)
    ensures Parse(lib, spec.expr) == Ok(spec)
    ensures NormalWords(lib, spec.kind, Fields(spec.expr)) && spec.expr == Join(Fields(spec.expr))
  {
    var raw :| Parse(lib, raw) == Ok(spec);
    hide Parse, NormalWords, Fields, Join;
    ParseIsIdempotent(lib, raw);
    ParsedIsNormal(lib, raw);
  }

  /** The duration of a parsed interval or once schedule. */
  ghost function DurationOf(lib: Library, spec: Spec): (d: int)
    requires Parsed(lib, spec) && spec.kind != Cron
    ensures d > 0
  {
    ParsedShape(lib, spec);
    lib.duration(Fields(spec.expr)[1]).value
  }

  /** The five fields a parsed cron schedule was accepted with. */
  ghost function CronOf(lib: Library, spec: Spec): (text: string)
    requires Parsed(lib, spec) && spec.kind == Cron
    ensures lib.cron(text).Some?
  {
    ParsedShape(lib, spec);
    Join(Fields(spec.expr)[1..])
  }

  lemma CronText(lib: Library, spec: Spec)
    requires Parsed(lib, spec) && spec.kind == Cron
    ensures TrimPrefix(spec.expr, "cron ") == CronOf(lib, spec)
  {
    hide Parse, Fields, Join, Parsed;
    ParsedShape(lib, spec);
    var words := Fields(spec.expr);
    JoinHead(words);
    assert spec.expr == "cron " + Join(words[1..]) by {
      assert "cron" + " " == "cron ";
    }
  }

  /** On a parsed schedule Next has no error: it adds the duration, or asks the cron library. */
  lemma NextOfParsed(lib: Library, spec: Spec, ref: Time, loc: Option<string>)
    requires Parsed(lib, spec)
    ensures Next(lib, spec, ref, loc) ==
      Ok(if spec.kind == Cron then lib.cron(CronOf(lib, spec)).value(ZoneName(loc), ref)
        else ref + DurationOf(lib, spec))
  {
    hide Parse, Fields, Join, Parsed, TrimPrefix;
    ParsedShape(lib, spec);
    if spec.kind == Cron { CronText(lib, spec); }
  }

  // ----- next functions -----

  /** A next function is strictly later and least: it skips nothing between an instant and its answer. */
  ghost predicate LeastLater(next: Time -> Time) {
    && (forall t :: t < next(t))
    && (forall t, u {:trigger next(t), next(u)} :: t <= u < next(t) ==> next(u) == next(t))
  }

  function CronStep(lib: Library, text: string, zone: string): Time -> Time
    requires lib.cron(text).Some?
  {
    t => lib.cron(text).value(zone, t)
  }

  ghost predicate WholeSeconds(step: Time -> Time) {
    forall t :: step(t) % NANOS == 0
  }

  // ----- the catch-up -----

  /**
    The loop of computeFutureNextRun, followed for at most `patience` turns after the first: step until strictly after
    now.
   */
  function CatchUpWithin(step: Time -> Time, ref: Time, now: Time, patience: nat): Option<Time>
    decreases patience
  {
    if now < step(ref) then Some(step(ref))
    else if patience == 0 then None
    else CatchUpWithin(step, step(ref), now, patience - 1)
  }

  /** The loop ends. */
  ghost predicate Ends(step: Time -> Time, ref: Time, now: Time) {
    exists n: nat :: CatchUpWithin(step, ref, now, n).Some?
  }

  /** Where it ends. */
  ghost function CatchUp(step: Time -> Time, ref: Time, now: Time): Time
    requires Ends(step, ref, now)
  {
    var n: nat :| CatchUpWithin(step, ref, now, n).Some?;
    CatchUpWithin(step, ref, now, n).value
  }

  /** More patience changes nothing once the loop has ended. */
  lemma {:induction false} SameEnd(step: Time -> Time, ref: Time, now: Time, n: nat, m: nat)
    requires CatchUpWithin(step, ref, now, n).Some? && n <= m
    ensures CatchUpWithin(step, ref, now, m) == CatchUpWithin(step, ref, now, n)
    decreases n
  {
    if now < step(ref) {
    } else {
      SameEnd(step, step(ref), now, n - 1, m - 1);
    }
  }

  lemma Ended(step: Time -> Time, ref: Time, now: Time, n: nat)
    requires CatchUpWithin(step, ref, now, n).Some?
    ensures Ends(step, ref, now) && CatchUp(step, ref, now) == CatchUpWithin(step, ref, now, n).value
  {
    var k: nat :| CatchUpWithin(step, ref, now, k).Some?
      && CatchUp(step, ref, now) == CatchUpWithin(step, ref, now, k).value;
    SameEnd(step, ref, now, if k < n then k else n, if k < n then n else k);
  }

  /** One turn of the loop. */
  lemma Turn(step: Time -> Time, ref: Time, now: Time)
    ensures Ends(step, ref, now) <==> now < step(ref) || Ends(step, step(ref), now)
    ensures Ends(step, ref, now) ==>
      CatchUp(step, ref, now) == if now < step(ref) then step(ref) else CatchUp(step, step(ref), now)
  {
    if now < step(ref) {
      Ended(step, ref, now, 0);
    } else {
      if Ends(step, ref, now) {
        var n: nat :| CatchUpWithin(step, ref, now, n).Some?;
        assert CatchUpWithin(step, step(ref), now, n - 1).Some?;
      }
      if Ends(step, step(ref), now) {
        var n: nat :| CatchUpWithin(step, step(ref), now, n).Some?;
        Ended(step, step(ref), now, n);
        assert CatchUpWithin(step, ref, now, n + 1) == CatchUpWithin(step, step(ref), now, n);
        Ended(step, ref, now, n + 1);
      }
    }
  }

  ghost function Iterate(step: Time -> Time, t: Time, n: nat): Time
    decreases n
  {
    if n == 0 then t else Iterate(step, step(t), n - 1)
  }

  lemma {:induction false} PassedWithin(step: Time -> Time, ref: Time, now: Time, k: nat)
    requires now < Iterate(step, step(ref), k)
    ensures CatchUpWithin(step, ref, now, k).Some?
    decreases k
  {
    if now < step(ref) {
    } else {
      PassedWithin(step, step(ref), now, k - 1);
    }
  }

  lemma {:induction false} WithinPassed(step: Time -> Time, ref: Time, now: Time, n: nat) returns (k: nat)
    requires CatchUpWithin(step, ref, now, n).Some?
    ensures now < Iterate(step, step(ref), k)
    decreases n
  {
    if now < step(ref) {
      k := 0;
    } else {
      k := WithinPassed(step, step(ref), now, n - 1);
      k := k + 1;
    }
  }

  /** Unrolled: some iterate of the step lies after now. */
  lemma EndsIff(step: Time -> Time, ref: Time, now: Time)
    ensures Ends(step, ref, now) <==> exists k: nat :: now < Iterate(step, step(ref), k)
  {
    if Ends(step, ref, now) {
      var n: nat :| CatchUpWithin(step, ref, now, n).Some?;
      var k := WithinPassed(step, ref, now, n);
    }
    if exists k: nat :: now < Iterate(step, step(ref), k) {
      var k: nat :| now < Iterate(step, step(ref), k);
      PassedWithin(step, ref, now, k);
    }
  }

  // ----- the end of the catch-up, in terms of an expression's occurrences -----

  /** Some occurrence lies after t, where the library still looks for it. */
  ghost predicate Finds(occurs: Time -> bool, sees: (Time, Time) -> bool, t: Time) {
    exists o :: t < o && occurs(o) && sees(t, o)
  }

  /** The next function answers with the least later occurrence, and with one fixed instant when it finds none. */
  ghost predicate Searches(step: Time -> Time, occurs: Time -> bool, sees: (Time, Time) -> bool, none: Time) {
    forall t ::
      if Finds(occurs, sees, t) then t < step(t) && occurs(step(t)) && forall o :: t < o && occurs(o) ==> step(t) <= o
      else step(t) == none
  }

  /** From t the library finds an occurrence, and again from each occurrence up to now. */
  ghost predicate Leads(occurs: Time -> bool, sees: (Time, Time) -> bool, t: Time, now: Time) {
    Finds(occurs, sees, t) && forall o :: t < o <= now && occurs(o) ==> Finds(occurs, sees, o)
  }

  /** One turn of the search. */
  lemma LeadsOn(step: Time -> Time, occurs: Time -> bool, sees: (Time, Time) -> bool, none: Time, t: Time, now: Time)
    requires Searches(step, occurs, sees, none)
    ensures !Finds(occurs, sees, t) ==> step(t) == none && !Leads(occurs, sees, t, now)
    ensures Finds(occurs, sees, t) ==>
      t < step(t) && (Leads(occurs, sees, t, now) <==> now < step(t) || Leads(occurs, sees, step(t), now))
  {
    hide Finds;
  }

  lemma {:induction false} Climbs(step: Time -> Time, occurs: Time -> bool,
      sees: (Time, Time) -> bool, none: Time, t: Time, now: Time)
    requires Searches(step, occurs, sees, none) && Leads(occurs, sees, t, now)
    ensures Ends(step, t, now)
    decreases now - t
  {
    hide Searches, Finds, Leads, Ends, CatchUp;
    Turn(step, t, now);
    LeadsOn(step, occurs, sees, none, t, now);
    if now < step(t) {
    } else {
      Climbs(step, occurs, sees, none, step(t), now);
    }
  }

  /** Short of now the loop comes to an instant from which nothing is found, and starts again from the fixed one. */
  lemma {:induction false} FallsBack(step: Time -> Time, occurs: Time -> bool,
      sees: (Time, Time) -> bool, none: Time, t: Time, now: Time)
    requires Searches(step, occurs, sees, none) && !Leads(occurs, sees, t, now) && none <= now
    ensures Ends(step, t, now) <==> Ends(step, none, now)
    decreases now - t
  {
    hide Searches, Finds, Leads, Ends, CatchUp;
    Turn(step, t, now);
    LeadsOn(step, occurs, sees, none, t, now);
    if !Finds(occurs, sees, t) {
    } else {
      FallsBack(step, occurs, sees, none, step(t), now);
    }
  }

  lemma {:induction false} NeverWithin(step: Time -> Time, occurs: Time -> bool,
      sees: (Time, Time) -> bool, none: Time, t: Time, now: Time, n: nat)
    requires Searches(step, occurs, sees, none) && none <= now
    requires !Leads(occurs, sees, none, now) && !Leads(occurs, sees, t, now)
    ensures CatchUpWithin(step, t, now, n).None?
    decreases n
  {
    hide Searches, Finds, Leads;
    LeadsOn(step, occurs, sees, none, t, now);
    if n == 0 {
    } else {
      NeverWithin(step, occurs, sees, none, step(t), now, n - 1);
    }
  }

  lemma {:induction false} AnswersLater(step: Time -> Time, occurs: Time -> bool,
      sees: (Time, Time) -> bool, none: Time, t: Time, now: Time)
    requires Searches(step, occurs, sees, none) && now < none
    ensures Ends(step, t, now)
    decreases now - t
  {
    hide Searches, Finds, Leads, Ends, CatchUp;
    Turn(step, t, now);
    LeadsOn(step, occurs, sees, none, t, now);
    if now < step(t) {
    } else {
      AnswersLater(step, occurs, sees, none, step(t), now);
    }
  }

  /**
    The loop ends if and only if the occurrences lead past now, from the due time or from the instant the
    library answers with when it finds none, or that instant itself lies after now.
   */
  lemma LeadsIff(step: Time -> Time, occurs: Time -> bool, sees: (Time, Time) -> bool, none: Time, due: Time, now: Time)
    requires Searches(step, occurs, sees, none)
    ensures Ends(step, due, now) <==>
      now < none || Leads(occurs, sees, due, now) || Leads(occurs, sees, none, now)
  {
    hide Searches, Leads;
    if now < none {
      AnswersLater(step, occurs, sees, none, due, now);
    } else if Leads(occurs, sees, due, now) {
      Climbs(step, occurs, sees, none, due, now);
    } else {
      FallsBack(step, occurs, sees, none, due, now);
      if Leads(occurs, sees, none, now) {
        Climbs(step, occurs, sees, none, none, now);
      } else {
        forall n: nat ensures CatchUpWithin(step, none, now, n).None? {
          NeverWithin(step, occurs, sees, none, none, now, n);
        }
      }
    }
  }

  function Everywhere(): (Time, Time) -> bool { (t, o) => true }

  /** Where the loop ends there is an occurrence, unless it is the fixed instant. */
  lemma {:induction false} EndsAtOccurrence(step: Time -> Time, occurs: Time -> bool,
      sees: (Time, Time) -> bool, none: Time, t: Time, now: Time, n: nat)
    requires Searches(step, occurs, sees, none) && CatchUpWithin(step, t, now, n).Some?
    ensures var o := CatchUpWithin(step, t, now, n).value; now < o && (occurs(o) || o == none)
    decreases n
  {
    hide Finds;
    if now < step(t) {
    } else {
      EndsAtOccurrence(step, occurs, sees, none, step(t), now, n - 1);
    }
  }

  /** A library that misses no later occurrence: the loop ends if and only if one lies after now. */
  lemma OccurrenceIff(step: Time -> Time, occurs: Time -> bool, none: Time, due: Time, now: Time)
    requires Searches(step, occurs, Everywhere(), none) && none <= now
    ensures Ends(step, due, now) <==> exists o :: now < o && occurs(o)
  {
    hide Searches, Leads;
    LeadsIff(step, occurs, Everywhere(), none, due, now);
    if o: Time :| now < o && occurs(o) {
      OccurrenceLeads(occurs, none, now, o);
    }
    if Ends(step, due, now) {
      var n: nat :| CatchUpWithin(step, due, now, n).Some?;
      EndsAtOccurrence(step, occurs, Everywhere(), none, due, now, n);
    }
  }

  lemma OccurrenceLeads(occurs: Time -> bool, t: Time, now: Time, o: Time)
    requires t <= now < o && occurs(o)
    ensures Leads(occurs, Everywhere(), t, now)
  {
    assert forall u :: u <= now ==> Finds(occurs, Everywhere(), u) by {
      forall u | u <= now ensures Finds(occurs, Everywhere(), u) {
        assert u < o && occurs(o) && Everywhere()(u, o);
      }
    }
    hide Finds;
  }

  /** The answers of a next function. */
  function Answers(step: Time -> Time): Time -> bool { o => step(o - 1) == o }

  lemma LeastLaterFinds(step: Time -> Time, t: Time)
    requires LeastLater(step)
    ensures Finds(Answers(step), Everywhere(), t) && t < step(t) && Answers(step)(step(t))
    ensures forall o :: t < o && Answers(step)(o) ==> step(t) <= o
  {
    assert step(step(t) - 1) == step(t);
    assert t < step(t) && Answers(step)(step(t)) && Everywhere()(t, step(t));
    forall o | t < o && Answers(step)(o) ensures step(t) <= o {
      assert step(o - 1) == o;
    }
  }

  /** A strictly later and least next function finds an occurrence from everywhere, so its loop ends. */
  lemma LeastLaterEnds(step: Time -> Time, due: Time, now: Time)
    requires LeastLater(step)
    ensures Ends(step, due, now)
  {
    hide LeastLater, Finds, Answers, Ends;
    assert forall t :: Finds(Answers(step), Everywhere(), t) by {
      forall t ensures Finds(Answers(step), Everywhere(), t) { LeastLaterFinds(step, t); }
    }
    assert Searches(step, Answers(step), Everywhere(), now) by {
      forall t ensures t < step(t) && Answers(step)(step(t)) && forall o :: t < o && Answers(step)(o) ==> step(t) <= o {
        LeastLaterFinds(step, t);
      }
    }
    hide Searches;
    LeadsIff(step, Answers(step), Everywhere(), now, due, now);
  }

  /** A next function with one fixed answer ends the loop only if that answer lies after now. */
  lemma ConstantEndsIff(step: Time -> Time, answer: Time, ref: Time, now: Time)
    requires forall t :: step(t) == answer
    ensures Ends(step, ref, now) <==> now < answer
  {
    var never := (o: Time) => false;
    assert forall t :: !Finds(never, Everywhere(), t);
    LeadsIff(step, never, Everywhere(), answer, ref, now);
  }

  lemma DivisionStep(x: int, d: int)
    requires d > 0
    ensures (x + d) / d == x / d + 1
  {
    var k := (x + d) / d - x / d - 1;
    assert d * k == x % d - (x + d) % d;
    assert k >= 1 ==> d * k >= d;
    assert k <= -1 ==> d * k <= -d;
  }

  lemma SmallDivision(x: int, d: int)
    requires 0 <= x < d
    ensures x / d == 0
  {
  }

  function Every(d: int): Time -> Time { t => t + d }

  /** For a fixed duration: the first multiple past now, counted from the due time. */
  lemma {:induction false} IntervalCatchUp(step: Time -> Time, d: int, due: Time, now: Time)
    requires d > 0 && forall t :: step(t) == t + d
    ensures Ends(step, due, now)
    ensures CatchUp(step, due, now) == if due <= now then due + ((now - due) / d + 1) * d else due + d
    decreases now - due
  {
    Turn(step, due, now);
    if due + d <= now {
      IntervalCatchUp(step, d, due + d, now);
      var k := (now - (due + d)) / d;
      DivisionStep(now - (due + d), d);
      assert now - (due + d) + d == now - due;
      assert (k + 2) * d == d + (k + 1) * d;
    } else if due <= now {
      SmallDivision(now - due, d);
    }
  }

  /** For a least later function: its answer to now. */
  lemma {:induction false} CronCatchUp(step: Time -> Time, due: Time, now: Time)
    requires LeastLater(step)
    ensures Ends(step, due, now)
    ensures CatchUp(step, due, now) == if due <= now then step(now) else step(due)
    decreases now - due
  {
    LeastLaterEnds(step, due, now);
    Turn(step, due, now);
    if now < step(due) {
    } else {
      CronCatchUp(step, step(due), now);
    }
  }

  // ----- computeFutureNextRun -----

  /** The zone of a job, when it can be loaded. */
  function LoadZone(lib: Library, timezone: string): Result<string> {
    if timezone == "" || timezone == "Local" then Ok("Local")
    else if lib.zone(timezone) then Ok(timezone)
    else Err(BadTimezone)
  }

  /** The stored expression as Next reads it: parsed again, and of the stored kind. */
  function Reparsed(lib: Library, spec: Spec): (r: Result<Spec>) {
    var parsed := Parse(lib, spec.expr);
    if parsed.Ok? && parsed.value.kind != spec.kind then Err(KindMismatch) else parsed
  }

  /** Next on any stored schedule is Next on what the parser makes of it. */
  lemma NextReparsed(lib: Library, spec: Spec, ref: Time, loc: Option<string>)
    ensures Reparsed(lib, spec).Ok? ==>
      Parsed(lib, Reparsed(lib, spec).value)
        && Next(lib, spec, ref, loc) == Next(lib, Reparsed(lib, spec).value, ref, loc)
    ensures Reparsed(lib, spec).Err? ==> Next(lib, spec, ref, loc) == Err(Reparsed(lib, spec).error)
  {
    hide Parse;
    if Parse(lib, spec.expr).Ok? { ParseIsIdempotent(lib, spec.expr); }
  }

  /** The step of a stored schedule; it does not matter when the expression is refused. */
  function StoredStep(lib: Library, spec: Spec, zone: string): Time -> Time {
    t => match Next(lib, spec, t, Some(zone))
         case Ok(next) => next
         case Err(_) => t
  }

  /** What Next says of a stored schedule, at every instant. */
  lemma StoredSteps(lib: Library, spec: Spec, zone: string)
    ensures var parsed := Reparsed(lib, spec);
      && (parsed.Err? ==> forall t :: Next(lib, spec, t, Some(zone)) == Err(parsed.error))
      && (parsed.Ok? ==>
            && Parsed(lib, parsed.value)
            && (forall t :: Next(lib, spec, t, Some(zone)) == Ok(StoredStep(lib, spec, zone)(t)))
            && (spec.kind != Cron ==> forall t :: StoredStep(lib, spec, zone)(t) == t + DurationOf(lib, parsed.value))
            && (spec.kind == Cron ==> forall t ::
              StoredStep(lib, spec, zone)(t) == CronStep(lib, CronOf(lib, parsed.value), zone)(t)))
  {
    hide Parse, NormalWords, Next, DurationOf, CronOf, Parsed;
    NextReparsed(lib, spec, 0, Some(zone));
    forall t
      ensures Reparsed(lib, spec).Err? ==> Next(lib, spec, t, Some(zone)) == Err(Reparsed(lib, spec).error)
      ensures Reparsed(lib, spec).Ok? ==>
        Next(lib, spec, t, Some(zone)) == Next(lib, Reparsed(lib, spec).value, t, Some(zone))
    {
      NextReparsed(lib, spec, t, Some(zone));
    }
    if Reparsed(lib, spec).Ok? {
      forall t
        ensures Next(lib, Reparsed(lib, spec).value, t, Some(zone)) ==
          Ok(if spec.kind == Cron then lib.cron(CronOf(lib, Reparsed(lib, spec).value)).value(zone, t)
             else t + DurationOf(lib, Reparsed(lib, spec).value))
      {
        NextOfParsed(lib, Reparsed(lib, spec).value, t, Some(zone));
      }
    }
  }

  /** The cron library on this expression, in this zone: it finds the least later occurrence, a whole second. */
  ghost predicate Regular(lib: Library, spec: Spec, zone: string) {
    spec.kind == Cron && Reparsed(lib, spec).Ok? ==>
      LeastLater(StoredStep(lib, spec, zone)) && WholeSeconds(StoredStep(lib, spec, zone))
  }

  /** For an interval the answer keeps the phase of the due time; for cron it is the first occurrence after now. */
  ghost function Caught(lib: Library, spec: Spec, zone: string, due: Time, now: Time): Time
    requires Reparsed(lib, spec).Ok?
  {
    StoredSteps(lib, spec, zone);
    if spec.kind == Cron then StoredStep(lib, spec, zone)(if due <= now then now else due)
    else var d := DurationOf(lib, Reparsed(lib, spec).value); if due <= now then due + ((now - due) / d + 1) * d
      else due + d
  }

  /** The loop ends, and there, for every interval, and for a cron expression that is regular. */
  lemma CatchUpEnds(lib: Library, spec: Spec, zone: string, due: Time, now: Time)
    requires Reparsed(lib, spec).Ok? && Regular(lib, spec, zone)
    ensures Ends(StoredStep(lib, spec, zone), due, now)
    ensures CatchUp(StoredStep(lib, spec, zone), due, now) == Caught(lib, spec, zone, due, now)
  {
    hide Parse, Next, DurationOf, CronOf, StoredStep, Parsed, LeastLater;
    StoredSteps(lib, spec, zone);
    if spec.kind == Cron {
      CronCatchUp(StoredStep(lib, spec, zone), due, now);
    } else {
      IntervalCatchUp(StoredStep(lib, spec, zone), DurationOf(lib, Reparsed(lib, spec).value), due, now);
    }
  }

  /** Midnight of the 31st of February, by the wall clock of a zone. */
  predicate NoSuchMidnight(wall: Time -> Time, o: Time) {
    wall(o) >= 0 && wall(o) % NANOS == 0 &&
    var stamp := StampOf(Seconds(wall(o)));
    stamp.date.month == 2 && stamp.date.day == 31 && stamp.hour == 0 && stamp.minute == 0 && stamp.second == 0
  }

  function Midnights(wall: Time -> Time): Time -> bool { o => NoSuchMidnight(wall, o) }

  lemma NeverMidnight(wall: Time -> Time, o: Time)
    ensures !NoSuchMidnight(wall, o)
  {
    if wall(o) >= 0 { StampRoundTrip(Seconds(wall(o))); }
  }

  /**
    An accepted expression whose date is not in the calendar: a library that searches for it, in whatever zone
    and however far, lets the loop end only if the instant it answers with instead lies after now.
   */
  lemma NoSuchDate(lib: Library, zone: string, wall: Time -> Time, sees: (Time, Time) -> bool, none: Time, due: Time,
      now: Time)
    requires lib.cron("0 0 31 2 *").Some?
    requires Searches(CronStep(lib, "0 0 31 2 *", zone), Midnights(wall), sees, none)
    ensures var spec := Spec(Cron, "cron 0 0 31 2 *");
      Parse(lib, spec.expr) == Ok(spec) && (Ends(StoredStep(lib, spec, zone), due, now) <==> now < none)
  {
    hide Parse, Fields, Join, NoSuchMidnight;
    forall o ensures !NoSuchMidnight(wall, o) { NeverMidnight(wall, o); }
    NoSuchDateWords();
    NormalParses(lib, Cron, ["cron", "0", "0", "31", "2", "*"]);
    var spec := Spec(Cron, "cron 0 0 31 2 *");
    StoredSteps(lib, spec, zone);
    assert forall t :: !Finds(Midnights(wall), sees, t);
    ConstantEndsIff(StoredStep(lib, spec, zone), none, due, now);
  }

  lemma NoSuchDateWords()
    ensures var words := ["cron", "0", "0", "31", "2", "*"];
      AreWords(words) && Join(words) == "cron 0 0 31 2 *" && Join(words[1..]) == "0 0 31 2 *"
  {
    var words := ["cron", "0", "0", "31", "2", "*"];
    assert Join(words[4..]) == "2 *" by { assert words[4..][1..] == ["*"]; }
    assert words[3..][1..] == words[4..] && words[2..][1..] == words[3..] && words[1..][1..] == words[2..];
    assert Join(words[3..]) == "31 2 *";
    assert Join(words[2..]) == "0 31 2 *";
    assert Join(words[1..]) == "0 0 31 2 *";
  }

  /** The catch-up of a stored schedule ends, or is not begun. */
  ghost predicate FutureEnds(lib: Library, spec: Spec, timezone: string, due: Option<Time>, now: Time) {
    due.Some? && LoadZone(lib, timezone).Ok? && Reparsed(lib, spec).Ok? ==>
      Ends(StoredStep(lib, spec, LoadZone(lib, timezone).value), due.value, now)
  }

  ghost function FutureNextRun(lib: Library, spec: Spec, timezone: string, due: Option<Time>, now: Time): Result<Time>
    requires FutureEnds(lib, spec, timezone, due, now)
  {
    if due.None? then Err(NoNextRun)
    else if LoadZone(lib, timezone).Err? then Err(BadTimezone)
    else if Reparsed(lib, spec).Err? then Err(Reparsed(lib, spec).error)
    else Ok(CatchUp(StoredStep(lib, spec, LoadZone(lib, timezone).value), due.value, now))
  }

  /**
    The next_run_at of a processed job: from the stored due time, step until strictly after now. The
    precondition is that the loop ends, which OccurrenceIff and LeadsIff put in terms of the occurrences.
   */
  method ComputeFutureNextRun(lib: Library, spec: Spec, timezone: string, due: Option<Time>, now: Time)
    returns (r: Result<Time>)
    requires FutureEnds(lib, spec, timezone, due, now)
    ensures r == FutureNextRun(lib, spec, timezone, due, now)
  {
    if due.None? { return Err(NoNextRun); }
    var zone := LoadZone(lib, timezone);
    if zone.Err? { return Err(zone.error); }

    hide LoadZone, Reparsed, StoredStep, Next, CatchUp, Ends, CatchUpWithin;
    StoredSteps(lib, spec, zone.value);
    ghost var step := StoredStep(lib, spec, zone.value);
    ghost var left: nat := 0;
    if Reparsed(lib, spec).Ok? { left := TurnsLeft(step, due.value, now); }
    var ref := due.value;
    while true
      invariant Reparsed(lib, spec).Ok? ==>
        Ends(step, ref, now) && CatchUp(step, ref, now) == CatchUp(step, due.value, now)
      invariant Reparsed(lib, spec).Ok? ==> CatchUpWithin(step, ref, now, left).Some?
      decreases left
    {
      var next := Next(lib, spec, ref, Some(zone.value));
      Turn(step, ref, now);
      TurnWithin(step, ref, now, left);
      if next.Err? || now < next.value { return next; }
      ref, left := next.value, left - 1;
    }
  }

  /** The name of a zone; an empty one is the local zone. */
  function NormalizedTimezone(timezone: string): string { if timezone == "" then "Local" else timezone }

  predicate ZoneKnown(lib: Library, timezone: string) {
    timezone == "" || timezone == "Local" || lib.zone(timezone)
  }

  lemma LoadedZone(lib: Library, timezone: string)
    ensures LoadZone(lib, timezone) == if ZoneKnown(lib, timezone) then Ok(NormalizedTimezone(timezone))
      else Err(BadTimezone)
  {
  }

  /** A stored interval or once text. */
  lemma DurationText(lib: Library, kind: Kind, word: string)
    requires kind != Cron && IsWord(word) && lib.duration(word).Some? && lib.duration(word).value > 0
    ensures var spec := Spec(kind, (if kind == Interval then "every " else "after ") + word);
      && Reparsed(lib, spec) == Ok(spec)
      && forall ref, loc :: Next(lib, spec, ref, loc) == Ok(ref + lib.duration(word).value)
  {
    hide Parse, Fields, Join;
    var words := [if kind == Interval then "every" else "after", word];
    JoinPair(words[0], word);
    NormalParses(lib, kind, words);
    assert "every" + " " == "every " && "after" + " " == "after ";
  }

  /** A stored cron text. */
  lemma CronTexts(lib: Library, words: seq<string>)
    requires |words| == 5 && AreWords(words) && lib.cron(CronFields(words)).Some?
    ensures var spec := Spec(Cron, "cron " + CronFields(words));
      && Reparsed(lib, spec) == Ok(spec)
      && (forall ref :: Next(lib, spec, ref, None) == Ok(lib.cron(CronFields(words)).value("Local", ref)))
      && (forall ref, zone :: Next(lib, spec, ref, Some(zone)) == Ok(lib.cron(CronFields(words)).value(zone, ref)))
  {
    hide Parse, Fields, Join, CronFields;
    var all := ["cron"] + words;
    assert all[1..] == words;
    JoinFive(words);
    JoinHead(all);
    assert "cron" + " " == "cron ";
    NormalParses(lib, Cron, all);
    assert TrimPrefix("cron " + CronFields(words), "cron ") == CronFields(words);
  }

  /**
    A cron job is caught up to the first occurrence after now by the clock of its own zone, which is the local one
    only for an empty name and for "Local".
   */
  lemma FutureCron(lib: Library, words: seq<string>, timezone: string, due: Time, now: Time)
    requires |words| == 5 && AreWords(words) && lib.cron(CronFields(words)).Some? && ZoneKnown(lib, timezone)
    requires LeastLater(t => lib.cron(CronFields(words)).value(NormalizedTimezone(timezone), t))
    ensures var spec := Spec(Cron, "cron " + CronFields(words));
      FutureEnds(lib, spec, timezone, Some(due), now) &&
      FutureNextRun(lib, spec, timezone, Some(due), now) ==
        Ok(lib.cron(CronFields(words)).value(NormalizedTimezone(timezone), if due <= now then now else due))
  {
    hide LoadZone, Parse, Next, CronFields, Reparsed;
    CronTexts(lib, words);
    LoadedZone(lib, timezone);
    var step := StoredStep(lib, Spec(Cron, "cron " + CronFields(words)), NormalizedTimezone(timezone));
    assert LeastLater(step) by {
      SameNext(step, t => lib.cron(CronFields(words)).value(NormalizedTimezone(timezone), t));
    }
    hide LeastLater;
    CronCatchUp(step, due, now);
  }

  lemma SameNext(step: Time -> Time, next: Time -> Time)
    requires (forall t :: step(t) == next(t)) && LeastLater(next)
    ensures LeastLater(step)
  {
    forall t, u | t <= u < step(t) ensures step(u) == step(t) {
      assert next(u) == next(t);
    }
  }

  /** An interval is caught up in multiples of its duration, from the due time. */
  lemma FutureInterval(lib: Library, kind: Kind, word: string, timezone: string, due: Time, now: Time)
    requires kind != Cron && IsWord(word) && lib.duration(word).Some? && lib.duration(word).value > 0
    requires ZoneKnown(lib, timezone)
    ensures var spec := Spec(kind, (if kind == Interval then "every " else "after ") + word);
      var d := lib.duration(word).value;
      FutureEnds(lib, spec, timezone, Some(due), now) &&
      FutureNextRun(lib, spec, timezone, Some(due), now) ==
        Ok(if due <= now then due + ((now - due) / d + 1) * d else due + d)
  {
    hide LoadZone, Parse, Next, Reparsed;
    DurationText(lib, kind, word);
    LoadedZone(lib, timezone);
    var spec := Spec(kind, (if kind == Interval then "every " else "after ") + word);
    IntervalCatchUp(StoredStep(lib, spec, NormalizedTimezone(timezone)), lib.duration(word).value, due, now);
  }

  /** The two errors that do not come from the expression. */
  lemma FutureErrors(lib: Library, spec: Spec, timezone: string, due: Option<Time>, now: Time)
    requires FutureEnds(lib, spec, timezone, due, now)
    ensures FutureNextRun(lib, spec, timezone, due, now) == Err(NoNextRun) <==> due == None
    ensures FutureNextRun(lib, spec, timezone, due, now) == Err(BadTimezone) <==> due.Some? && !ZoneKnown(lib, timezone)
  {
    LoadedZone(lib, timezone);
    hide LoadZone, StoredStep, Ends, CatchUp, Fields, TrimSpace;
  }

  lemma TurnWithin(step: Time -> Time, ref: Time, now: Time, n: nat)
    ensures CatchUpWithin(step, ref, now, n).Some? && step(ref) <= now ==>
      n > 0 && CatchUpWithin(step, step(ref), now, n - 1).Some?
  {
  }

  lemma TurnsLeft(step: Time -> Time, ref: Time, now: Time) returns (n: nat)
    requires Ends(step, ref, now)
    ensures CatchUpWithin(step, ref, now, n).Some?
  {
    n :| CatchUpWithin(step, ref, now, n).Some?;
  }

  /** It lies strictly after now. */
  lemma {:induction false} CaughtUp(step: Time -> Time, ref: Time, now: Time, n: nat)
    requires CatchUpWithin(step, ref, now, n).Some?
    ensures Ends(step, ref, now) && now < CatchUp(step, ref, now)
    decreases n
  {
    Turn(step, ref, now);
    if now < step(ref) {
    } else {
      CaughtUp(step, step(ref), now, n - 1);
    }
  }

  // ----- what storage keeps of it -----

  /** The next_run_at column after processing a due time at now. */
  ghost function StoredNext(step: Time -> Time, due: Second, now: Time): Second
    requires Ends(step, Instant(due), now)
  {
    Seconds(CatchUp(step, Instant(due), now))
  }

  /** A cron job just processed is not due again within the second. */
  lemma CronNotDueAgain(step: Time -> Time, due: Second, now: Time)
    requires LeastLater(step) && WholeSeconds(step)
    ensures Ends(step, Instant(due), now)
    ensures due <= Seconds(now) ==> Seconds(now) < StoredNext(step, due, now) && due < StoredNext(step, due, now)
  {
    CronCatchUp(step, Instant(due), now);
  }

  /** The same column for an interval. */
  ghost function IntervalNext(d: int, due: Second, now: Time): Second
    requires d > 0
  {
    IntervalCatchUp(Every(d), d, Instant(due), now);
    StoredNext(Every(d), due, now)
  }

  lemma IntervalNextIs(step: Time -> Time, d: int, due: Second, now: Time)
    requires d > 0 && forall t :: step(t) == t + d
    ensures Ends(step, Instant(due), now) && StoredNext(step, due, now) == IntervalNext(d, due, now)
  {
    IntervalCatchUp(step, d, Instant(due), now);
    IntervalCatchUp(Every(d), d, Instant(due), now);
  }

  /**
    An interval job just processed is never due again within the second, exactly when its duration is whole seconds.
   */
  lemma NotDueAgainIff(d: int)
    requires d > 0
    ensures (forall due: Second, now: Time :: due <= Seconds(now) ==> Seconds(now) < IntervalNext(d, due, now))
            <==> d % NANOS == 0
  {
    if d % NANOS == 0 {
      forall due: Second, now: Time | due <= Seconds(now) ensures Seconds(now) < IntervalNext(d, due, now) {
        IntervalCatchUp(Every(d), d, Instant(due), now);
        WholeMultiple(due, (now - Instant(due)) / d + 1, d);
      }
    } else {
      var now := d - 1;
      IntervalCatchUp(Every(d), d, Instant(0), now);
      SmallDivision(now, d);
      assert IntervalNext(d, 0, now) == Seconds(d) == Seconds(now);
    }
  }

  lemma WholeMultiple(due: Second, k: int, d: int)
    requires d % NANOS == 0
    ensures (Instant(due) + k * d) % NANOS == 0
  {
    assert d == d / NANOS * NANOS;
    assert Instant(due) + k * d == (due + k * (d / NANOS)) * NANOS;
  }

  /** Its stored due times are strictly increasing, exactly when its duration is at least a second. */
  lemma StrictlyIncreasingIff(d: int)
    requires d > 0
    ensures (forall due: Second, now: Time :: due <= Seconds(now) ==> due < IntervalNext(d, due, now))
            <==> d >= NANOS
  {
    if d >= NANOS {
      forall due: Second, now: Time | due <= Seconds(now) ensures due < IntervalNext(d, due, now) {
        IntervalCatchUp(Every(d), d, Instant(due), now);
        AtLeastOne(d, (now - Instant(due)) / d + 1);
      }
    } else {
      IntervalCatchUp(Every(d), d, Instant(0), 0);
      assert IntervalNext(d, 0, 0) == 0;
    }
  }

  lemma AtLeastOne(d: int, k: int)
    requires k >= 1 && d >= 0
    ensures k * d >= d
  {
  }
}
