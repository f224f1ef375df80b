/**
 Writing settings out as configuration text, and reading them back: what each option says is what it sets, and
 a section written in full restores every attribute that options can reach.
 */
module LogConfigTexts {
  import opened LogQueues
  import opened Decimals
  import opened LogConfigs

  const OPTIONS := [Path, Name, Level, Display, OutFile, MonthDir, LimitSize, FileLine, Enable]

  /** Settings that text can express: one of the seven levels, and a size that fits. */
  predicate Expressible(t: Settings) {
    0 <= t.level <= 6 && 0 <= t.limitsize < 0x1_0000_0000
  }

  function NameOf(a: Attribute): string {
    match a
    case Path => "path"
    case Name => "name"
    case Level => "level"
    case Display => "display"
    case OutFile => "outfile"
    case MonthDir => "monthdir"
    case LimitSize => "limitsize"
    case FileLine => "fileline"
    case Enable => "enable"
    case NoAttribute => "other"
  }

  function LevelName(level: int): string {
    match level
    case 0 => "trace"
    case 1 => "debug"
    case 2 => "info"
    case 3 => "warn"
    case 4 => "error"
    case 5 => "alarm"
    case _ => "fatal"
  }

  function OnText(on: bool): string {
    if on then "true" else "false"
  }

  function ValueOf(t: Settings, a: Attribute): string
    requires Expressible(t)
  {
    match a
    case Path => t.path
    case Name => t.name
    case Level => LevelName(t.level)
    case Display => OnText(t.display)
    case OutFile => OnText(t.outfile)
    case MonthDir => OnText(t.monthdir)
    case LimitSize => Decimal(t.limitsize)
    case FileLine => OnText(t.fileLine)
    case Enable => OnText(t.enable)
    case NoAttribute => ""
  }

  /** s with attribute a taken from t. */
  function Copy(s: Settings, t: Settings, a: Attribute): Settings {
    match a
    case Path => s.(path := t.path)
    case Name => s.(name := t.name)
    case Level => s.(level := t.level)
    case Display => s.(display := t.display)
    case OutFile => s.(outfile := t.outfile)
    case MonthDir => s.(monthdir := t.monthdir)
    case LimitSize => s.(limitsize := t.limitsize)
    case FileLine => s.(fileLine := t.fileLine)
    case Enable => s.(enable := t.enable)
    case NoAttribute => s
  }

  function CopyAll(s: Settings, t: Settings, attributes: seq<Attribute>): Settings {
    if attributes == [] then s else Copy(CopyAll(s, t, attributes[..|attributes| - 1]), t, attributes[|attributes| - 1])
  }

  // ---- values ----

  lemma LowerLeaves(s: string)
    requires forall i :: 0 <= i < |s| ==> !('A' <= s[i] <= 'Z')
    ensures Lower(s) == s
  {
  }

  predicate AllDigits(s: string) {
    forall i :: 0 <= i < |s| ==> '0' <= s[i] <= '9'
  }

  lemma {:induction false} DecimalIsDigits(n: nat)
    ensures AllDigits(Decimal(n))
  {
    if n >= 10 {
      DecimalIsDigits(n / 10);
    }
  }

  lemma {:induction false} DigitsSnoc(s: string, c: char, sum: nat)
    requires AllDigits(s) && '0' <= c <= '9'
    ensures Digits(s + [c], sum) == 10 * Digits(s, sum) + (c - '0') as nat
  {
    if s == "" {
      assert s + [c] == [c] && [c][1..] == "";
      assert Digits([c], sum) == Digits([c][1..], 10 * sum + (c - '0') as nat);
    } else {
      DigitsSnoc(s[1..], c, 10 * sum + (s[0] - '0') as nat);
      assert (s + [c])[1..] == s[1..] + [c];
    }
  }

  lemma {:induction false} DigitsOfDecimal(n: nat)
    ensures Digits(Decimal(n), 0) == n
  {
    if n < 10 {
      DigitsSnoc("", Digit(n), 0);
      assert "" + [Digit(n)] == [Digit(n)];
    } else {
      DigitsOfDecimal(n / 10);
      DecimalIsDigits(n / 10);
      DigitsSnoc(Decimal(n / 10), Digit(n % 10), 0);
    }
  }

  lemma AtoiOfDecimal(n: nat)
    ensures Lower(Decimal(n)) == Decimal(n) && Atoi(Decimal(n)) == n
  {
    var s := Decimal(n);
    DecimalIsDigits(n);
    LowerLeaves(s);
    DigitsOfDecimal(n);
    assert '0' <= s[0] <= '9';
    assert StripFront(s, " \t\n\r\U{0B}\U{0C}") == s;
  }

  lemma LevelIsRead(level: int, before: int)
    requires 0 <= level <= 6
    ensures Lower(LevelName(level)) == LevelName(level)
    ensures LevelNamed(LevelName(level), before) == level
  {
    LowerLeaves(LevelName(level));
  }

  lemma SwitchIsRead(on: bool)
    ensures Lower(OnText(on)) == OnText(on) && IsOn(OnText(on)) == on
  {
    LowerLeaves(OnText(on));
  }

  /** Every value is read as what it was written for. */
  lemma ValueIsRead(s: Settings, t: Settings, a: Attribute)
    requires Expressible(t)
    ensures SetAttribute(s, a, ValueOf(t, a)) == Copy(s, t, a)
  {
    LevelIsRead(t.level, s.level);
    SwitchIsRead(t.display);
    SwitchIsRead(t.outfile);
    SwitchIsRead(t.monthdir);
    SwitchIsRead(t.fileLine);
    SwitchIsRead(t.enable);
    AtoiOfDecimal(t.limitsize);
    hide Lower, Atoi, LevelNamed, IsOn, OnText, LevelName, Decimal;
  }

  lemma NameIsRead(a: Attribute)
    requires a != NoAttribute
    ensures AttributeOf(Lower(NameOf(a))) == a
  {
    LowerLeaves(NameOf(a));
    hide Lower;
  }

  // ---- lines ----

  /** Text that survives trimming. */
  predicate Clean(s: string, ext: string) {
    Tight(s, ext + BLANKS) && !HasBom(s)
  }

  lemma CleanIsKept(s: string)
    requires Clean(s, "")
    ensures Trimmed(s, "") == s
  {
    assert "" + s + "" == s;
    TrimIsTheMiddle(s, "", "", s, "");
  }

  lemma FindsFirst(s: string, rest: string)
    requires '=' !in s
    ensures Find(s + ['='] + rest) == |s| && SplitPair(s + ['='] + rest) == (s, rest)
  {
    var t := s + ['='] + rest;
    assert t[|s|] == '=' && t[..|s|] == s && t[|s| + 1..] == rest;
    forall i | 0 <= i < |s| ensures t[i] != '=' {
      assert t[i] == s[i] && s[i] in s;
    }
    FindIsFirst(t, |s|);
  }

  lemma FindIsFirst(t: string, n: nat)
    requires n <= |t| && (n < |t| ==> t[n] == '=') && forall i :: 0 <= i < n ==> t[i] != '='
    ensures Find(t) == n
  {
  }

  lemma OptionIsRead(name: string, value: string)
    requires name != "" && '=' !in name && Clean(name, "") && name[0] != '#' && name[0] != '['
    requires Clean(value, "")
    ensures Read(name + ['='] + value) == Option(name, value)
  {
    FindsFirst(name, value);
    CleanIsKept(name);
    CleanIsKept(value);
    hide Trimmed, SplitPair, Clean;
  }

  lemma HeaderIsRead(key: string)
    requires '=' !in key && Tight(key, "[]" + BLANKS)
    ensures Read("[" + key + "]") == Header(SectionKey(key))
  {
    var line := "[" + key + "]";
    forall i | 0 <= i < |line| ensures line[i] != '=' {
      if 0 < i <= |key| { assert line[i] == key[i - 1] && key[i - 1] in key; }
    }
    FindIsFirst(line, |line|);
    assert line[|line| - 1] == ']' && line[0] == '[';
    CleanIsKept(line);
    assert "" + "" + "" == "";
    CleanIsKept("");
    TrimIsTheMiddle(line, "[]", "[", key, "]");
    hide Trimmed;
  }

  function OptionLine(t: Settings, a: Attribute): string
    requires Expressible(t)
  {
    NameOf(a) + ['='] + ValueOf(t, a)
  }

  function OptionLines(t: Settings, attributes: seq<Attribute>): (lines: seq<string>)
    requires Expressible(t)
    ensures |lines| == |attributes|
  {
    if attributes == [] then [] else OptionLines(t, attributes[..|attributes| - 1]) + [OptionLine(t, attributes[|attributes| - 1])]
  }

  /** Small letters and digits survive everything. */
  lemma WordIsClean(s: string)
    requires forall i :: 0 <= i < |s| ==> 'a' <= s[i] <= 'z' || '0' <= s[i] <= '9'
    ensures Clean(s, "") && '=' !in s && (s != "" ==> s[0] != '#' && s[0] != '[')
  {
    assert "" + BLANKS == BLANKS;
  }

  lemma ValueIsClean(t: Settings, a: Attribute)
    requires Expressible(t) && Clean(t.path, "") && Clean(t.name, "")
    ensures Clean(ValueOf(t, a), "")
  {
    if a == LimitSize {
      DecimalIsDigits(t.limitsize);
    }
    hide Decimal, Clean;
    if a != Path && a != Name {
      WordIsClean(ValueOf(t, a));
    }
  }

  lemma NameIsClean(a: Attribute)
    ensures Clean(NameOf(a), "") && '=' !in NameOf(a) && NameOf(a) != "" && NameOf(a)[0] != '#' && NameOf(a)[0] != '['
  {
    hide Clean;
    WordIsClean(NameOf(a));
  }

  lemma OptionLineIsRead(t: Settings, a: Attribute)
    requires Expressible(t) && Clean(t.path, "") && Clean(t.name, "")
    ensures Read(OptionLine(t, a)) == Option(NameOf(a), ValueOf(t, a))
  {
    ValueIsClean(t, a);
    NameIsClean(a);
    hide Clean, NameOf, ValueOf, Read;
    OptionIsRead(NameOf(a), ValueOf(t, a));
  }

  lemma {:induction false} ObeyAllSnoc(p: Parse, lines: seq<string>, line: string)
    ensures ObeyAll(p, lines + [line]) == Obey(ObeyAll(p, lines), Read(line))
    decreases |lines|
  {
    hide Read, Obey;
    if lines == [] {
      assert lines + [line] == [line] && [line][1..] == [];
    } else {
      assert (lines + [line])[1..] == lines[1..] + [line];
      ObeyAllSnoc(Obey(p, Read(lines[0])), lines[1..], line);
    }
  }

  lemma {:induction false} OptionLinesAreRead(p: Parse, t: Settings, attributes: seq<Attribute>)
    requires Expressible(t) && Clean(t.path, "") && Clean(t.name, "")
    requires p.key in p.sections && NoAttribute !in attributes
    ensures ObeyAll(p, OptionLines(t, attributes))
            == p.(sections := p.sections[p.key := CopyAll(p.sections[p.key], t, attributes)])
  {
    hide Read, Copy, SetAttribute, AttributeOf, Clean, NameOf, ValueOf;
    if attributes != [] {
      var n := |attributes| - 1;
      var a := attributes[n];
      assert a in attributes && forall b :: b in attributes[..n] ==> b in attributes;
      OptionLinesAreRead(p, t, attributes[..n]);
      OptionLineIsRead(t, a);
      NameIsRead(a);
      ValueIsRead(CopyAll(p.sections[p.key], t, attributes[..n]), t, a);
      ObeyAllSnoc(p, OptionLines(t, attributes[..n]), OptionLine(t, a));
    } else {
      assert p.sections[p.key := p.sections[p.key]] == p.sections;
    }
  }

  lemma CopyAllSnoc(s: Settings, t: Settings, attributes: seq<Attribute>, a: Attribute)
    ensures CopyAll(s, t, attributes + [a]) == Copy(CopyAll(s, t, attributes), t, a)
  {
    assert (attributes + [a])[..|attributes|] == attributes;
  }

  lemma AllOptionsCopyAll(s: Settings, t: Settings)
    ensures CopyAll(s, t, OPTIONS) == t.(reservedays := s.reservedays)
  {
    var done: seq<Attribute> := [];
    CopyAllSnoc(s, t, done, Path);
    done := done + [Path];
    CopyAllSnoc(s, t, done, Name);
    done := done + [Name];
    CopyAllSnoc(s, t, done, Level);
    done := done + [Level];
    CopyAllSnoc(s, t, done, Display);
    done := done + [Display];
    CopyAllSnoc(s, t, done, OutFile);
    done := done + [OutFile];
    CopyAllSnoc(s, t, done, MonthDir);
    done := done + [MonthDir];
    CopyAllSnoc(s, t, done, LimitSize);
    done := done + [LimitSize];
    CopyAllSnoc(s, t, done, FileLine);
    done := done + [FileLine];
    CopyAllSnoc(s, t, done, Enable);
    assert done + [Enable] == OPTIONS;
  }

  function SectionText(key: string, t: Settings): seq<string>
    requires Expressible(t)
  {
    ["[" + key + "]"] + OptionLines(t, OPTIONS)
  }

  /** A section written out in full and read back has the settings it was written from, but for the days kept. */
  lemma WrittenSectionIsRead(p: Parse, key: string, t: Settings)
    requires Expressible(t) && Clean(t.path, "") && Clean(t.name, "")
    requires '=' !in key && Tight(key, "[]" + BLANKS) && SectionKey(key) !in p.sections
    ensures var k := SectionKey(key);
      ObeyAll(p, SectionText(key, t)) == Parse(k, p.sections[k := t.(reservedays := DEFAULT_SETTINGS.reservedays)])
  {
    hide Read, SectionKey, Clean, Tight, Set;
    var k, header := SectionKey(key), "[" + key + "]";
    var q := Parse(k, p.sections[k := NewSection(k)]);
    HeaderIsRead(key);
    assert SectionText(key, t)[1..] == OptionLines(t, OPTIONS) && SectionText(key, t)[0] == header;
    assert Obey(p, Read(header)) == q;
    hide Obey, CopyAll;
    OptionLinesAreRead(q, t, OPTIONS);
    AllOptionsCopyAll(NewSection(k), t);
  }

  // ---- letter case ----

  /** x is y, or the capital of the letter y, or y that of x. */
  predicate SameLetter(x: char, y: char) {
    x == y || ('a' <= x <= 'z' && x as int - 'a' as int == y as int - 'A' as int)
           || ('a' <= y <= 'z' && y as int - 'a' as int == x as int - 'A' as int)
  }

  /** Equal up to letter case. */
  predicate SameText(s: string, t: string) {
    |s| == |t| && forall i :: 0 <= i < |s| ==> SameLetter(s[i], t[i])
  }

  lemma LowerChar(x: char, y: char)
    ensures SameLetter(x, y) <==> Lower([x]) == Lower([y])
  {
    assert Lower([x])[0] == Lower([y])[0] <==> Lower([x]) == Lower([y]);
  }

  /** Folding identifies exactly the texts that are equal up to letter case. */
  lemma LowerIdentifies(s: string, t: string)
    ensures SameText(s, t) <==> Lower(s) == Lower(t)
  {
    forall i | 0 <= i < |s| == |t| ensures SameLetter(s[i], t[i]) <==> Lower(s)[i] == Lower(t)[i] {
      LowerChar(s[i], t[i]);
      assert Lower([s[i]])[0] == Lower(s)[i] && Lower([t[i]])[0] == Lower(t)[i];
    }
    if Lower(s) == Lower(t) {
      assert |s| == |t|;
    }
    if SameText(s, t) {
      assert forall i :: 0 <= i < |s| ==> Lower(s)[i] == Lower(t)[i];
    }
  }

  /** An option is about attribute a exactly if its name is that of a, in any case. */
  lemma AttributeInAnyCase(name: string, a: Attribute)
    requires a != NoAttribute
    ensures AttributeOf(Lower(name)) == a <==> SameText(name, NameOf(a))
  {
    LowerIdentifies(name, NameOf(a));
    LowerLeaves(NameOf(a));
    NameIsRead(a);
    hide Lower, SameText;
  }

  /** Whatever the case of the name and of the value: what was written for an attribute is what is set. */
  lemma OptionInAnyCase(s: Settings, t: Settings, a: Attribute, name: string, value: string)
    requires Expressible(t) && a != NoAttribute && SameText(name, NameOf(a))
    requires if a == Path || a == Name then value == ValueOf(t, a) else SameText(value, ValueOf(t, a))
    ensures Set(s, name, value) == Copy(s, t, a)
  {
    AttributeInAnyCase(name, a);
    LowerIdentifies(value, ValueOf(t, a));
    ValueIsRead(s, t, a);
    hide Lower, AttributeOf, SameText, Copy, ValueOf, Atoi, LevelNamed, IsOn;
    assert Set(s, name, value) == SetAttribute(s, a, value);
  }

  /** A header opens Main exactly if its text is main, in any case, and otherwise the section of its own text. */
  lemma MainInAnyCase(text: string)
    ensures SectionKey(text) == "Main" <==> SameText(text, "main")
    ensures !SameText(text, "main") ==> SectionKey(text) == text
  {
    LowerIdentifies(text, "main");
    LowerLeaves("main");
    assert SameText("Main", "main");
  }

  // ---- the values not written by WrittenSectionIsRead ----

  /** Off is "false" or "0", in any case; everything else is on. */
  lemma SwitchedOff(value: string)
    ensures IsOn(Lower(value)) <==> !SameText(value, "false") && value != "0"
  {
    LowerIdentifies(value, "false");
    LowerIdentifies(value, "0");
    LowerLeaves("false");
    LowerLeaves("0");
    assert SameText(value, "0") <==> value == "0";
  }

  /** "all" and "warning" are other names of the levels trace and warn; a name of no level changes nothing. */
  lemma OtherLevelNames(before: int, name: string)
    ensures LevelNamed("all", before) == LevelNamed("trace", before) == 0
    ensures LevelNamed("warning", before) == LevelNamed("warn", before) == 3
    ensures LevelNamed(name, before) == before || 0 <= LevelNamed(name, before) <= 6
    ensures LevelNamed("", before) == before && LevelNamed("verbose", before) == before
  {
  }

  const SPACES := " \t\n\r\U{0B}\U{0C}"

  /** Signs and leading blanks are read as atoi does. */
  lemma SignedNumerals(n: nat)
    ensures Atoi("-" + Decimal(n)) == 0 - n && Atoi("+" + Decimal(n)) == n && Atoi(" " + Decimal(n)) == n
  {
    var d := Decimal(n);
    DigitsOfDecimal(n);
    AtoiOfDecimal(n);
    assert ("-" + d)[1..] == d && ("+" + d)[1..] == d && (" " + d)[1..] == d;
    assert StripFront("-" + d, SPACES) == "-" + d && StripFront("+" + d, SPACES) == "+" + d;
    assert StripFront(" " + d, SPACES) == StripFront(d, SPACES);
    hide Lower, Decimal, Digits;
  }

  /** A negative size wraps to an unsigned one. */
  lemma NegativeSizes(s: Settings, n: nat)
    requires 0 < n <= 0x1_0000_0000
    ensures SetAttribute(s, LimitSize, "-" + Decimal(n)).limitsize == 0x1_0000_0000 - n
  {
    SignedNumerals(n);
    DecimalIsDigits(n);
    LowerLeaves("-" + Decimal(n));
    hide Lower, Decimal, Atoi;
  }

  /** A new section is enabled and named after its key; the rest are the documented defaults. */
  lemma NewSections(p: Parse, key: string)
    requires key !in p.sections
    ensures Obey(p, Header(key)) ==
            Parse(key, p.sections[key := Settings(true, 1, key, "./log/", true, true, false, 100, 7, true)])
  {
  }

  /** A header met again continues its section. */
  lemma OldSections(p: Parse, key: string)
    requires key in p.sections
    ensures Obey(p, Header(key)) == p.(key := key)
  {
  }

  // ---- what a line may look like ----

  /** The characters that are cut off, that end lines, and that make a byte order mark, by their codes. */
  lemma Codes(s: string, c: char)
    ensures c in BLANKS <==> c as int == 13 || c as int == 10 || c as int == 9 || c as int == 32
    ensures IsBreak(c) <==> c as int == 13 || c as int == 10
    ensures HasBom(s) <==> |s| >= 3 && s[0] as int == 0xEF && s[1] as int == 0xBB && s[2] as int == 0xBF
  {
  }

  /** Blanks do not complete a byte order mark. */
  lemma NoBom(pre: string, text: string, post: string)
    requires AllIn(pre, BLANKS) && AllIn(post, BLANKS) && !HasBom(text)
    ensures !HasBom(pre + text + post)
  {
    var s := pre + text + post;
    if pre != "" {
      assert s[0] == pre[0] && pre[0] in pre;
    } else if |text| >= 3 {
      assert s[0] == text[0] && s[1] == text[1] && s[2] == text[2];
    } else if |s| >= 3 {
      assert s[|text|] == post[0] && post[0] in post;
    }
  }

  lemma PaddedIsTrimmed(pre: string, text: string, post: string)
    requires AllIn(pre, BLANKS) && AllIn(post, BLANKS) && Clean(text, "")
    ensures Trimmed(pre + text + post, "") == text
  {
    assert "" + BLANKS == BLANKS;
    NoBom(pre, text, post);
    TrimIsTheMiddle(pre + text + post, "", pre, text, post);
  }

  lemma NoEquals(pre: string, text: string, post: string)
    requires AllIn(pre, BLANKS) && AllIn(post, BLANKS) && '=' !in text
    ensures '=' !in pre + text + post
  {
  }

  /** Blanks around name and value do not matter. */
  lemma PaddedOptionIsRead(a: string, name: string, b: string, c: string, value: string, d: string)
    requires AllIn(a, BLANKS) && AllIn(b, BLANKS) && AllIn(c, BLANKS) && AllIn(d, BLANKS)
    requires name != "" && '=' !in name && Clean(name, "") && name[0] != '#' && name[0] != '[' && Clean(value, "")
    ensures Read((a + name + b) + ['='] + (c + value + d)) == Option(name, value)
  {
    NoEquals(a, name, b);
    FindsFirst(a + name + b, c + value + d);
    PaddedIsTrimmed(a, name, b);
    PaddedIsTrimmed(c, value, d);
    CleanIsKept(name);
    CleanIsKept(value);
    assert a + name + b != "";
    hide Trimmed, SplitPair, Clean, AllIn;
  }

  lemma TwiceTrimmedIsRead(first: string, once: string, name: string, second: string, trimmed: string, value: string)
    requires first != "" && '=' !in first && Trimmed(first, "") == once && Trimmed(once, "") == name
    requires once != "" && once[0] != '#' && once[0] != '['
    requires Trimmed(second, "") == trimmed && Trimmed(trimmed, "") == value
    ensures Read(first + ['='] + second) == Option(name, value)
  {
    FindsFirst(first, second);
    hide Trimmed, SplitPair;
  }

  /** Even a byte order mark behind blanks is cut off, for name and value are trimmed twice. */
  lemma HiddenMarkIsDropped(name: string, value: string)
    requires name != "" && '=' !in name && Clean(name, "") && value != "" && Clean(value, "")
    ensures Read((" " + ("\U{EF}\U{BB}\U{BF}" + name)) + ['='] + (" " + ("\U{EF}\U{BB}\U{BF}" + value))) == Option(name, value)
  {
    var marked, also := "\U{EF}\U{BB}\U{BF}" + name, "\U{EF}\U{BB}\U{BF}" + value;
    MarkedIsTrimmed(name);
    MarkedIsTrimmed(value);
    hide *;
    TwiceTrimmedIsRead(" " + marked, marked, name, " " + also, also, value);
  }

  lemma MarkedIsTrimmed(name: string)
    requires name != "" && Clean(name, "")
    ensures var marked := "\U{EF}\U{BB}\U{BF}" + name;
      Trimmed(" " + marked, "") == marked && Trimmed(marked, "") == name &&
      marked != "" && marked[0] != '#' && marked[0] != '[' && " " + marked != "" && ('=' !in name ==> '=' !in " " + marked)
  {
    var marked := "\U{EF}\U{BB}\U{BF}" + name;
    assert "" + BLANKS == BLANKS;
    assert " " + marked + "" == " " + marked;
    assert marked[|marked| - 1] == name[|name| - 1];
    assert Tight(marked, BLANKS) && !HasBom(" " + marked) && AllIn(" ", BLANKS) && AllIn("", BLANKS);
    assert DropBom(marked) == name && "" + name + "" == name;
    assert '=' !in " " && '=' !in "\U{EF}\U{BB}\U{BF}";
    hide Tight, AllIn, HasBom;
    TrimIsTheMiddle(" " + marked, "", " ", marked, "");
    TrimIsTheMiddle(marked, "", "", name, "");
  }

  /** A line that says nothing: without a name it is refused; with a blank one, or a comment, it is skipped. */
  lemma SilentLines(blank: string, comment: string, value: string)
    requires AllIn(blank, BLANKS)
    ensures Read("") == Refused && Read(['='] + value) == Refused
    ensures blank != "" ==> Read(blank + ['='] + value) == Blank
    ensures '=' !in comment ==> Read((blank + "#" + comment) + ['='] + value) == Blank
  {
    assert [] + ['='] + value == ['='] + value;
    FindsFirst("", value);
    assert "" + blank + "" == blank;
    NoEquals(blank, "", "");
    FindsFirst(blank, value);
    assert "" + BLANKS == BLANKS;
    assert AllIn("", BLANKS) && Clean("", "");
    PaddedIsTrimmed("", "", blank);
    assert "" + "" + blank == blank;
    if '=' !in comment {
      CommentIsBlank(blank, comment, value);
    }
  }

  lemma CommentIsBlank(blank: string, comment: string, value: string)
    requires AllIn(blank, BLANKS) && '=' !in comment
    ensures Read((blank + "#" + comment) + ['='] + value) == Blank
  {
    var first, text := blank + "#" + comment, "#" + comment;
    assert first == blank + text && first == blank + text + "";
    assert AllIn("", BLANKS) && '=' !in text;
    hide Trimmed, SplitPair, AllIn;
    NoEquals(blank, text, "");
    FindsFirst(first, value);
    TrimKeepsHead(blank, text);
  }

  /** What stands first behind the blanks stays first. */
  lemma TrimKeepsHead(blank: string, text: string)
    requires AllIn(blank, BLANKS) && text != "" && text[0] == '#'
    ensures Trimmed(blank + text, "") != "" && Trimmed(blank + text, "")[0] == '#'
  {
    var s := blank + text;
    assert "" + BLANKS == BLANKS;
    assert !HasBom(s) by {
      if blank != "" {
        assert s[0] == blank[0] && blank[0] in blank;
      }
    }
    StripFrontUndoes(blank, text, BLANKS);
    StripBackKeepsHead(text, BLANKS);
  }

  lemma {:induction false} StripBackKeepsHead(s: string, ignore: string)
    requires s != "" && s[0] !in ignore
    ensures StripBack(s, ignore) != "" && StripBack(s, ignore)[0] == s[0]
  {
    if s[|s| - 1] in ignore {
      StripBackKeepsHead(s[..|s| - 1], ignore);
    }
  }
}
