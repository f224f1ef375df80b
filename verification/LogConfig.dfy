/**
 The logger's configuration text (examples/tcp_cereal_packet/utility/log4z.cpp): the one-pass trim, the
 splitting into lines, and the sections they build.  Characters stand for bytes.
 */
module LogConfigs {
  import opened LogQueues

  // ---- trimming ----

  const BLANKS := "\r\n\t "

  predicate HasBom(s: string) {
    |s| >= 3 && s[0] == '\U{EF}' && s[1] == '\U{BB}' && s[2] == '\U{BF}'
  }

  function DropBom(s: string): string {
    if HasBom(s) then s[3..] else s
  }

  function StripFront(s: string, ignore: string): string {
    if s != "" && s[0] in ignore then StripFront(s[1..], ignore) else s
  }

  function StripBack(s: string, ignore: string): string {
    if s != "" && s[|s| - 1] in ignore then StripBack(s[..|s| - 1], ignore) else s
  }

  function Trimmed(s: string, ext: string): string {
    StripBack(StripFront(DropBom(s), ext + BLANKS), ext + BLANKS)
  }

  predicate AllIn(s: string, ignore: string) {
    forall c :: c in s ==> c in ignore
  }

  /** No character to strip at either end. */
  predicate Tight(s: string, ignore: string) {
    s != "" ==> s[0] !in ignore && s[|s| - 1] !in ignore
  }

  lemma {:induction false} StripFrontUndoes(pre: string, s: string, ignore: string)
    requires AllIn(pre, ignore) && (s != "" ==> s[0] !in ignore)
    ensures StripFront(pre + s, ignore) == s
  {
    if pre == "" {
      assert pre + s == s;
    } else {
      assert pre[0] in pre && forall c :: c in pre[1..] ==> c in pre;
      assert (pre + s)[1..] == pre[1..] + s;
      StripFrontUndoes(pre[1..], s, ignore);
    }
  }

  lemma {:induction false} StripBackUndoes(s: string, post: string, ignore: string)
    requires AllIn(post, ignore) && (s != "" ==> s[|s| - 1] !in ignore)
    ensures StripBack(s + post, ignore) == s
  {
    if post == "" {
      assert s + post == s;
    } else {
      var n := |post| - 1;
      assert post[n] in post && forall c :: c in post[..n] ==> c in post;
      assert (s + post)[..|s + post| - 1] == s + post[..n];
      StripBackUndoes(s, post[..n], ignore);
    }
  }

  lemma {:induction false} StripFrontTakes(s: string, ignore: string) returns (pre: string)
    ensures AllIn(pre, ignore) && s == pre + StripFront(s, ignore)
    ensures StripFront(s, ignore) != "" ==> StripFront(s, ignore)[0] !in ignore
  {
    pre := "";
    if s != "" && s[0] in ignore {
      var rest := StripFrontTakes(s[1..], ignore);
      pre := [s[0]] + rest;
    }
  }

  lemma {:induction false} StripBackTakes(s: string, ignore: string) returns (post: string)
    ensures AllIn(post, ignore) && s == StripBack(s, ignore) + post
    ensures StripBack(s, ignore) != "" ==> StripBack(s, ignore)[|StripBack(s, ignore)| - 1] !in ignore
  {
    post := "";
    if s != "" && s[|s| - 1] in ignore {
      var rest := StripBackTakes(s[..|s| - 1], ignore);
      post := rest + [s[|s| - 1]];
    }
  }

  /** There is just one way to cut ignorable ends off and leave a tight middle, and trimming finds it. */
  lemma TrimIsTheMiddle(s: string, ext: string, pre: string, mid: string, post: string)
    requires DropBom(s) == pre + mid + post
    requires AllIn(pre, ext + BLANKS) && AllIn(post, ext + BLANKS) && Tight(mid, ext + BLANKS)
    ensures Trimmed(s, ext) == mid
  {
    var ignore := ext + BLANKS;
    if mid == "" {
      assert pre + mid + post == (pre + post) + "";
      StripFrontUndoes(pre + post, "", ignore);
    } else {
      assert pre + mid + post == pre + (mid + post);
      StripFrontUndoes(pre, mid + post, ignore);
      StripBackUndoes(mid, post, ignore);
    }
  }

  lemma TrimCuts(s: string, ext: string) returns (pre: string, post: string)
    ensures DropBom(s) == pre + Trimmed(s, ext) + post
    ensures AllIn(pre, ext + BLANKS) && AllIn(post, ext + BLANKS) && Tight(Trimmed(s, ext), ext + BLANKS)
  {
    hide DropBom, AllIn, StripFront, StripBack;
    var ignore := ext + BLANKS;
    pre := StripFrontTakes(DropBom(s), ignore);
    var front := StripFront(DropBom(s), ignore);
    post := StripBackTakes(front, ignore);
    assert pre + Trimmed(s, ext) + post == pre + (Trimmed(s, ext) + post);
    if Trimmed(s, ext) != "" {
      assert front[0] == Trimmed(s, ext)[0];
    }
  }

  /** Trimming twice is trimming once, unless a second byte order mark stands behind what is cut off in front. */
  lemma TrimTwiceIff(s: string, ext: string)
    requires ext == "" || ext == "[]"
    ensures Trimmed(Trimmed(s, ext), ext) == Trimmed(s, ext) <==> !HasBom(StripFront(DropBom(s), ext + BLANKS))
  {
    var ignore := ext + BLANKS;
    var t := Trimmed(s, ext);
    var pre, post := TrimCuts(s, ext);
    var front := StripFront(DropBom(s), ignore);
    var post' := StripBackTakes(front, ignore);
    assert front == t + post';
    if |t| < 3 <= |front| {
      assert post'[2 - |t|] in post' && front[2] in ignore;
    }
    if HasBom(t) {
      var pre2, post2 := TrimCuts(t, ext);
    } else {
      assert t == "" + t + "";
      TrimIsTheMiddle(t, ext, "", t, "");
    }
  }

  lemma SliceAllIn(s: string, from: nat, to: nat, ignore: string)
    requires from <= to <= |s| && forall k :: from <= k < to ==> s[k] in ignore
    ensures AllIn(s[from..to], ignore)
  {
  }

  /** What the pass knows at position i: where the ignorable front ends, and where the last kept character does. */
  ghost predicate Scanned(s: string, ignore: string, start: nat, begin: nat, end: nat, i: nat) {
    start <= begin <= i <= |s| &&
    (forall k :: start <= k < begin ==> s[k] in ignore) &&
    (if begin == i then end == 0
     else s[begin] !in ignore && begin < end <= i && s[end - 1] !in ignore && forall k :: end <= k < i ==> s[k] in ignore)
  }

  lemma ScanStep(s: string, ignore: string, start: nat, begin: nat, end: nat, i: nat)
    requires Scanned(s, ignore, start, begin, end, i) && i < |s|
    ensures if s[i] in ignore then Scanned(s, ignore, start, if i == begin then begin + 1 else begin, end, i + 1)
            else Scanned(s, ignore, start, begin, i + 1, i + 1)
  {
  }

  lemma ScanEnds(s: string, ext: string, start: nat, begin: nat, end: nat)
    requires start == (if HasBom(s) then 3 else 0) && Scanned(s, ext + BLANKS, start, begin, end, |s|)
    ensures Trimmed(s, ext) == if begin < end then s[begin..end] else ""
  {
    var ignore, stop := ext + BLANKS, if begin < end then end else |s|;
    hide AllIn, Trimmed;
    assert DropBom(s) == s[start..];
    assert begin < end || begin == |s|;
    TightSlice(s, ignore, begin, stop);
    SliceAllIn(s, start, begin, ignore);
    SliceAllIn(s, stop, |s|, ignore);
    hide *;
    CutTwice(s, start, begin, stop);
    assert s[stop..] == s[stop..|s|];
    TrimIsTheMiddle(s, ext, s[start..begin], s[begin..stop], s[stop..]);
  }

  lemma CutTwice(s: string, a: nat, b: nat, c: nat)
    requires a <= b <= c <= |s|
    ensures s[a..] == s[a..b] + s[b..c] + s[c..]
  {
  }

  lemma TightSlice(s: string, ignore: string, from: nat, to: nat)
    requires from <= to <= |s| && (from < to ==> s[from] !in ignore && s[to - 1] !in ignore)
    ensures Tight(s[from..to], ignore)
  {
  }

  /** trimLogConfig: one pass over the characters. */
  method Trim(str: string, ext: string) returns (r: string)
    ensures r == Trimmed(str, ext)
  {
    if str == "" {
      return "";
    }
    var extIgnore := ext + BLANKS;
    var posBegin, posEnd := 0, 0;
    if HasBom(str) {
      posBegin := 3;
    }
    ghost var start := posBegin;
    assert Scanned(str, extIgnore, start, posBegin, posEnd, posBegin);
    hide Scanned, Trimmed;
    for i := posBegin to |str|
      invariant Scanned(str, extIgnore, start, posBegin, posEnd, i) && posBegin <= i && posEnd <= i
    {
      var check := false;
      for j := 0 to |extIgnore|
        invariant check <==> str[i] in extIgnore[..j]
      {
        if str[i] == extIgnore[j] {
          check := true;
        }
      }
      assert extIgnore[..|extIgnore|] == extIgnore;
      ScanStep(str, extIgnore, start, posBegin, posEnd, i);
      if check {
        if i == posBegin {
          posBegin := posBegin + 1;
        }
      } else {
        posEnd := i + 1;
      }
    }
    ScanEnds(str, ext, start, posBegin, posEnd);
    if posBegin < posEnd {
      r := str[posBegin..posEnd];
    } else {
      r := "";
    }
  }

  // ---- lines ----

  predicate IsBreak(c: char) {
    c == '\r' || c == '\n'
  }

  predicate NoBreak(s: string) {
    forall i :: 0 <= i < |s| ==> !IsBreak(s[i])
  }

  /** Everything up to the first line break, and what follows it. */
  function Lines(content: string): (lines: seq<string>)
    ensures |lines| > 0
  {
    if content == "" then [""]
    else
      var rest := Lines(content[1..]);
      if IsBreak(content[0]) then [""] + rest else [[content[0]] + rest[0]] + rest[1..]
  }

  function Breaks(content: string): string {
    if content == "" then ""
    else if IsBreak(content[0]) then [content[0]] + Breaks(content[1..])
    else Breaks(content[1..])
  }

  function Rejoin(lines: seq<string>, breaks: string): string
    requires |lines| == |breaks| + 1
  {
    if breaks == "" then lines[0] else lines[0] + [breaks[0]] + Rejoin(lines[1..], breaks[1..])
  }

  lemma RejoinLonger(c: char, lines: seq<string>, breaks: string)
    requires |lines| == |breaks| + 1
    ensures Rejoin([[c] + lines[0]] + lines[1..], breaks) == [c] + Rejoin(lines, breaks)
  {
    var longer := [[c] + lines[0]] + lines[1..];
    assert longer[0] == [c] + lines[0] && longer[1..] == lines[1..];
    if breaks != "" {
      var rest := Rejoin(lines[1..], breaks[1..]);
      assert ([c] + lines[0]) + [breaks[0]] + rest == [c] + (lines[0] + [breaks[0]] + rest);
    }
  }

  lemma {:induction false} LinesRejoin(content: string)
    ensures |Lines(content)| == |Breaks(content)| + 1 && Rejoin(Lines(content), Breaks(content)) == content
  {
    if content != "" {
      var rest, breaks := Lines(content[1..]), Breaks(content[1..]);
      LinesRejoin(content[1..]);
      assert [content[0]] + content[1..] == content;
      if IsBreak(content[0]) {
        assert ([""] + rest)[1..] == rest && ([content[0]] + breaks)[1..] == breaks;
        assert "" + [content[0]] + content[1..] == content;
      } else {
        RejoinLonger(content[0], rest, breaks);
      }
    }
  }

  lemma {:induction false} LinesHoldNoBreak(content: string)
    ensures forall k :: 0 <= k < |Lines(content)| ==> NoBreak(Lines(content)[k])
    ensures forall k :: 0 <= k < |Breaks(content)| ==> IsBreak(Breaks(content)[k])
  {
    if content != "" {
      LinesHoldNoBreak(content[1..]);
    }
  }

  /** The lines and the separators rebuild the content; no line holds a separator. */
  lemma LinesRebuild(content: string)
    ensures var lines, breaks := Lines(content), Breaks(content);
      |lines| == |breaks| + 1 && Rejoin(lines, breaks) == content &&
      (forall k :: 0 <= k < |lines| ==> NoBreak(lines[k])) && (forall k :: 0 <= k < |breaks| ==> IsBreak(breaks[k]))
  {
    LinesRejoin(content);
    LinesHoldNoBreak(content);
  }

  lemma {:induction false} LinesOfLine(line: string)
    requires NoBreak(line)
    ensures Lines(line) == [line] && Breaks(line) == ""
  {
    if line != "" {
      LinesOfLine(line[1..]);
      assert [line[0]] + line[1..] == line;
    }
  }

  lemma {:induction false} LinesCons(line: string, b: char, rest: string)
    requires NoBreak(line) && IsBreak(b)
    ensures Lines(line + [b] + rest) == [line] + Lines(rest)
    ensures Breaks(line + [b] + rest) == [b] + Breaks(rest)
  {
    if line == "" {
      assert line + [b] + rest == [b] + rest;
    } else {
      LinesCons(line[1..], b, rest);
      assert [line[0]] + line[1..] == line;
      assert (line + [b] + rest)[1..] == line[1..] + [b] + rest;
    }
  }

  /** No other lines and separators rebuild it. */
  lemma {:induction false} LinesAreUnique(lines: seq<string>, breaks: string)
    requires |lines| == |breaks| + 1
    requires forall k :: 0 <= k < |lines| ==> NoBreak(lines[k])
    requires forall k :: 0 <= k < |breaks| ==> IsBreak(breaks[k])
    ensures Lines(Rejoin(lines, breaks)) == lines && Breaks(Rejoin(lines, breaks)) == breaks
    decreases |breaks|
  {
    hide Lines, Breaks, NoBreak, IsBreak;
    if breaks == "" {
      LinesOfLine(lines[0]);
      assert lines == [lines[0]];
    } else {
      var rest := Rejoin(lines[1..], breaks[1..]);
      LinesAreUnique(lines[1..], breaks[1..]);
      assert Rejoin(lines, breaks) == lines[0] + [breaks[0]] + rest;
      hide Rejoin;
      LinesCons(lines[0], breaks[0], rest);
      assert [lines[0]] + lines[1..] == lines && [breaks[0]] + breaks[1..] == breaks;
    }
  }

  // ---- one line ----

  function Lower(s: string): (r: string)
    ensures |r| == |s|
  {
    seq(|s|, i requires 0 <= i < |s| => if 'A' <= s[i] <= 'Z' then s[i] + ' ' else s[i])
  }

  /** The position of the first '=', or |s|. */
  function Find(s: string): (pos: nat)
    ensures pos <= |s| && (pos < |s| ==> s[pos] == '=') && forall i :: 0 <= i < pos ==> s[i] != '='
  {
    if s == "" || s[0] == '=' then 0 else 1 + Find(s[1..])
  }

  function SplitPair(s: string): (string, string) {
    var pos := Find(s);
    if pos == |s| then (s, "") else (s[..pos], s[pos + 1..])
  }

  /** What a line says. */
  datatype Line = Refused | Blank | Header(key: string) | Option(name: string, value: string)

  function SectionKey(text: string): string {
    if Lower(text) == "main" then "Main" else text
  }

  function Read(line: string): Line {
    var (first, second) := SplitPair(line);
    if first == "" then Refused else
      var name, value := Trimmed(first, ""), Trimmed(second, "");
      if name == "" || name[0] == '#' then Blank
      else if name[0] == '[' then Header(SectionKey(Trimmed(name, "[]")))
      else Option(Trimmed(name, ""), Trimmed(value, ""))
  }

  predicate IsOn(value: string) {
    value != "false" && value != "0"
  }

  const LEVELS := map["trace" := 0, "all" := 0, "debug" := 1, "info" := 2, "warn" := 3, "warning" := 3,
                      "error" := 4, "alarm" := 5, "fatal" := 6]

  /** The level of that name; other names leave it as it was. */
  function LevelNamed(name: string, before: int): int {
    if name in LEVELS then LEVELS[name] else before
  }

  function Digits(s: string, sum: nat): nat {
    if s != "" && '0' <= s[0] <= '9' then Digits(s[1..], 10 * sum + (s[0] - '0') as nat) else sum
  }

  /** atoi, over unbounded integers. */
  function Atoi(s: string): int {
    var digits := StripFront(s, " \t\n\r\U{0B}\U{0C}");
    if digits != "" && digits[0] == '-' then (var n: int := Digits(digits[1..], 0); -n)
    else if digits != "" && digits[0] == '+' then Digits(digits[1..], 0)
    else Digits(digits, 0)
  }

  /** What an option is about. */
  datatype Attribute = Path | Name | Level | Display | OutFile | MonthDir | LimitSize | FileLine | Enable | NoAttribute

  function AttributeOf(option: string): Attribute {
    if option == "path" then Path
    else if option == "name" then Name
    else if option == "level" then Level
    else if option == "display" then Display
    else if option == "outfile" then OutFile
    else if option == "monthdir" then MonthDir
    else if option == "limitsize" then LimitSize
    else if option == "fileline" then FileLine
    else if option == "enable" then Enable
    else NoAttribute
  }

  function SetAttribute(s: Settings, a: Attribute, value: string): Settings {
    var lower := Lower(value);
    match a
    case Path => s.(path := value)
    case Name => s.(name := value)
    case Level => s.(level := LevelNamed(lower, s.level))
    case Display => s.(display := IsOn(lower))
    case OutFile => s.(outfile := IsOn(lower))
    case MonthDir => s.(monthdir := IsOn(lower))
    case LimitSize => s.(limitsize := Atoi(lower) % 0x1_0000_0000)
    case FileLine => s.(fileLine := IsOn(lower))
    case Enable => s.(enable := IsOn(lower))
    case NoAttribute => s
  }

  /** One assignment of an option. */
  function Set(s: Settings, name: string, value: string): Settings {
    SetAttribute(s, AttributeOf(Lower(name)), value)
  }

  type Sections = map<string, Settings>

  function NewSection(key: string): Settings {
    DEFAULT_SETTINGS.(enable := true, name := key)
  }

  datatype Parse = Parse(key: string, sections: Sections)

  function Obey(p: Parse, line: Line): Parse {
    match line
    case Header(key) => Parse(key, if key in p.sections then p.sections else p.sections[key := NewSection(key)])
    case Option(name, value) =>
      if p.key in p.sections then p.(sections := p.sections[p.key := Set(p.sections[p.key], name, value)]) else p
    case _ => p
  }

  function ObeyAll(p: Parse, lines: seq<string>): Parse
    decreases |lines|
  {
    if lines == [] then p else ObeyAll(Obey(p, Read(lines[0])), lines[1..])
  }

  /** s and r differ at most in attribute a; no option is about the days kept. */
  predicate SameBut(a: Attribute, s: Settings, r: Settings) {
    (a != Path ==> r.path == s.path) && (a != Name ==> r.name == s.name) && (a != Level ==> r.level == s.level) &&
    (a != Display ==> r.display == s.display) && (a != OutFile ==> r.outfile == s.outfile) &&
    (a != MonthDir ==> r.monthdir == s.monthdir) && (a != LimitSize ==> r.limitsize == s.limitsize) &&
    (a != FileLine ==> r.fileLine == s.fileLine) && (a != Enable ==> r.enable == s.enable) &&
    r.reservedays == s.reservedays
  }

  lemma AttributeTouchesOne(s: Settings, a: Attribute, value: string)
    ensures SameBut(a, s, SetAttribute(s, a, value))
  {
    hide Lower, Atoi, LevelNamed, IsOn;
  }

  lemma SetTouchesOne(s: Settings, name: string, value: string)
    ensures SameBut(AttributeOf(Lower(name)), s, Set(s, name, value))
  {
    hide Lower, AttributeOf, SetAttribute, SameBut;
    AttributeTouchesOne(s, AttributeOf(Lower(name)), value);
  }

  lemma LowerTwice(s: string)
    ensures Lower(Lower(s)) == Lower(s)
  {
  }

  /** Names of options may be written in any case, and so may all values but path and name. */
  lemma SetIgnoresCase(s: Settings, name: string, value: string)
    ensures Set(s, Lower(name), value) == Set(s, name, value)
    ensures AttributeOf(Lower(name)) != Path && AttributeOf(Lower(name)) != Name ==>
              Set(s, name, Lower(value)) == Set(s, name, value)
  {
    LowerTwice(name);
    LowerTwice(value);
    hide Lower, Atoi, AttributeOf;
  }

  /** The second half of parseConfigLine. */
  method Assign(s: Settings, name: string, value: string) returns (r: Settings)
    ensures r == Set(s, name, value)
    ensures SameBut(AttributeOf(Lower(name)), s, r)
  {
    SetTouchesOne(s, name, value);
    hide Lower, Atoi, SameBut, LevelNamed;
    r := s;
    var option := Lower(name);
    if option == "path" {
      return s.(path := value);
    } else if option == "name" {
      return s.(name := value);
    }
    var lower := Lower(value);
    if option == "level" {
      var level := AssignLevel(s.level, lower);
      r := s.(level := level);
    } else if option == "display" {
      r := s.(display := !(lower == "false" || lower == "0"));
    } else if option == "outfile" {
      r := s.(outfile := !(lower == "false" || lower == "0"));
    } else if option == "monthdir" {
      r := s.(monthdir := !(lower == "false" || lower == "0"));
    } else if option == "limitsize" {
      r := s.(limitsize := Atoi(lower) % 0x1_0000_0000);
    } else if option == "fileline" {
      r := s.(fileLine := !(lower == "false" || lower == "0"));
    } else if option == "enable" {
      r := s.(enable := !(lower == "false" || lower == "0"));
    }
  }

  /** Its branches for a level. */
  method AssignLevel(before: int, lower: string) returns (level: int)
    ensures level == LevelNamed(lower, before)
  {
    level := before;
    if lower == "trace" || lower == "all" {
      level := 0;
    } else if lower == "debug" {
      level := 1;
    } else if lower == "info" {
      level := 2;
    } else if lower == "warn" || lower == "warning" {
      level := 3;
    } else if lower == "error" {
      level := 4;
    } else if lower == "alarm" {
      level := 5;
    } else if lower == "fatal" {
      level := 6;
    }
  }

  /** parseConfigLine */
  method ParseConfigLine(line: string, key0: string, info0: Sections) returns (ok: bool, key: string, outInfo: Sections)
    ensures ok == !Read(line).Refused?
    ensures Parse(key, outInfo) == Obey(Parse(key0, info0), Read(line))
  {
    hide Trimmed, Lower, Set;
    ok, key, outInfo := true, key0, info0;
    var (first, second) := SplitPair(line);
    if first == "" {
      return false, key, outInfo;
    }
    first := Trim(first, "");
    second := Trim(second, "");
    if first == "" || first[0] == '#' {
      return;
    }
    if first[0] == '[' {
      first := Trim(first, "[]");
      key := first;
      assert Read(line) == Header(SectionKey(first));
      if Lower(first) == "main" {
        key := "Main";
      }
      if key !in outInfo {
        outInfo := outInfo[key := DEFAULT_SETTINGS.(enable := true, name := key)];
      }
      return;
    }
    first := Trim(first, "");
    second := Trim(second, "");
    if key !in outInfo {
      return;
    }
    var s := Assign(outInfo[key], first, second);
    outInfo := outInfo[key := s];
  }

  lemma FirstLine(p: Parse, line: string, b: char, rest: string)
    requires NoBreak(line) && IsBreak(b)
    ensures ObeyAll(p, Lines(line + [b] + rest)) == ObeyAll(Obey(p, Read(line)), Lines(rest))
  {
    hide Obey, Read, Lines;
    LinesCons(line, b, rest);
    assert ([line] + Lines(rest))[1..] == Lines(rest);
  }

  lemma LastLine(p: Parse, line: string)
    requires NoBreak(line)
    ensures ObeyAll(p, Lines(line)) == Obey(p, Read(line))
  {
    hide Obey, Read, Lines;
    LinesOfLine(line);
  }

  /** parseConfigFromString */
  method ParseConfigFromString(content: string, info0: Sections) returns (outInfo: Sections)
    ensures outInfo == if content == "" then info0 else ObeyAll(Parse("", info0), Lines(content)).sections
  {
    hide Obey, Read, Lines, ObeyAll;
    outInfo := info0;
    if content == "" { return; }
    var key, curPos := "", 0;
    assert content[0..] == content;
    while true
      invariant 0 <= curPos <= |content|
      invariant ObeyAll(Parse(key, outInfo), Lines(content[curPos..])) == ObeyAll(Parse("", info0), Lines(content))
      decreases |content| - curPos
    {
      var pos := |content|;
      for i := curPos to |content|
        invariant pos == |content|
        invariant forall k :: curPos <= k < i ==> !IsBreak(content[k])
      {
        if IsBreak(content[i]) {
          pos := i;
          break;
        }
      }
      var line := content[curPos..pos];
      ghost var before := Parse(key, outInfo);
      var _, key', out' := ParseConfigLine(line, key, outInfo);
      key, outInfo := key', out';
      if pos == |content| {
        assert content[curPos..] == line;
        LastLine(before, line);
        break;
      }
      assert content[curPos..] == line + [content[pos]] + content[pos + 1..];
      FirstLine(before, line, content[pos], content[pos + 1..]);
      curPos := pos + 1;
    }
  }

  // ---- what the sections hold ----

  predicate HasHeader(k: string, lines: seq<string>) {
    exists i :: 0 <= i < |lines| && Read(lines[i]) == Header(k)
  }

  /** The options that stand under section k; `current` says whether k is open before the first line. */
  function Under(k: string, lines: seq<string>, current: bool): seq<Line> {
    if lines == [] then [] else
      match Read(lines[0])
      case Header(key) => Under(k, lines[1..], key == k)
      case Option(name, value) => (if current then [Option(name, value)] else []) + Under(k, lines[1..], current)
      case _ => Under(k, lines[1..], current)
  }

  function Assigned(s: Settings, options: seq<Line>): Settings
    decreases |options|
  {
    if options == [] then s
    else Assigned(if options[0].Option? then Set(s, options[0].name, options[0].value) else s, options[1..])
  }

  lemma AssignedCons(s: Settings, name: string, value: string, rest: seq<Line>)
    ensures Assigned(s, [Option(name, value)] + rest) == Assigned(Set(s, name, value), rest)
  {
    assert ([Option(name, value)] + rest)[1..] == rest;
  }

  lemma HasHeaderCons(k: string, lines: seq<string>)
    requires lines != []
    ensures HasHeader(k, lines) <==> Read(lines[0]) == Header(k) || HasHeader(k, lines[1..])
  {
    hide Read;
    if HasHeader(k, lines[1..]) {
      var i :| 0 <= i < |lines[1..]| && Read(lines[1..][i]) == Header(k);
      assert Read(lines[i + 1]) == Header(k);
    }
    if HasHeader(k, lines) && Read(lines[0]) != Header(k) {
      var i :| 0 <= i < |lines| && Read(lines[i]) == Header(k);
      assert Read(lines[1..][i - 1]) == Header(k);
    }
  }

  /**
   Sections are independent: a section exists exactly when it did before or some line is its header, and its
   settings are what it had - the defaults, if new - under the assignments standing under its headers, in
   order.  No other line has any effect on it.
   */
  lemma {:induction false} SectionsAreIndependent(p: Parse, lines: seq<string>, k: string)
    ensures var q := ObeyAll(p, lines);
      (k in q.sections <==> k in p.sections || HasHeader(k, lines)) &&
      (k in q.sections ==>
         q.sections[k] == Assigned(if k in p.sections then p.sections[k] else NewSection(k),
                                   Under(k, lines, p.key == k && k in p.sections)))
    decreases |lines|
  {
    hide Read, Set;
    if lines != [] {
      hide HasHeader;
      var line, rest := Read(lines[0]), lines[1..];
      SectionsAreIndependent(Obey(p, line), rest, k);
      HasHeaderCons(k, lines);
      if line.Option? && p.key == k && k in p.sections {
        AssignedCons(p.sections[k], line.name, line.value, Under(k, rest, true));
      } else if line.Option? {
        assert [] + Under(k, rest, false) == Under(k, rest, false);
      }
    }
  }

  /** Lines ahead of the first header change nothing, when there is no section yet. */
  lemma {:induction false} LinesBeforeHeadersAreIgnored(key: string, before: seq<string>, lines: seq<string>)
    requires forall i :: 0 <= i < |before| ==> !Read(before[i]).Header?
    ensures ObeyAll(Parse(key, map[]), before + lines) == ObeyAll(Parse(key, map[]), lines)
    decreases |before|
  {
    hide Read;
    if before == [] {
      assert before + lines == lines;
    } else {
      assert (before + lines)[1..] == before[1..] + lines;
      LinesBeforeHeadersAreIgnored(key, before[1..], lines);
    }
  }
}
