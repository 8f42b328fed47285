/** BIP-32 derivation paths in text form (crypto/ledger/accounts/hd.go), with the parts of Go's `strings` and `math/big`
    that the parser relies on. */
module HdPath {
  import opened Common

  const HARDENED := 0x8000_0000
  const TWO_32 := 0x1_0000_0000

  /** A path: a sequence of `uint32` components; those at or above 2^31 are hardened. */
  type Path = seq<nat>

  predicate IsPath(p: Path) { forall i :: 0 <= i < |p| ==> p[i] < TWO_32 }

  /** `DefaultRootDerivationPath`: m/44'/60'/0'/0. */
  const DEFAULT_ROOT: Path := [HARDENED + 44, HARDENED + 60, HARDENED, 0]

  // ---- strings --------------------------------------------------------------------------------

  /** `strings.Split(s, "/")`. */
  function Split(s: string): (parts: seq<string>)
    ensures |parts| > 0
  {
    if s == "" then [""]
    else
      var rest := Split(s[1..]);
      if s[0] == '/' then [""] + rest else [[s[0]] + rest[0]] + rest[1..]
  }

  /** `unicode.IsSpace`: the characters with the White_Space property. */
  predicate IsSpace(c: char) {
    || c == ' ' || c == '\t' || c == '\n' || c == '\r' || c == '\U{000B}' || c == '\U{000C}'
    || c == '\U{0085}' || c == '\U{00A0}' || c == '\U{1680}' || '\U{2000}' <= c <= '\U{200A}'
    || c == '\U{2028}' || c == '\U{2029}' || c == '\U{202F}' || c == '\U{205F}' || c == '\U{3000}'
  }

  function TrimLeft(s: string): string {
    if s != "" && IsSpace(s[0]) then TrimLeft(s[1..]) else s
  }

  function TrimRight(s: string): string {
    if s != "" && IsSpace(s[|s| - 1]) then TrimRight(s[..|s| - 1]) else s
  }

  /** `strings.TrimSpace`. */
  function TrimSpace(s: string): string { TrimRight(TrimLeft(s)) }

  // ---- big.Int.SetString with base 0 ----------------------------------------------------------

  /** The value of a digit; out of every base for other characters. */
  function Digit(c: char): nat {
    if '0' <= c <= '9' then (c - '0') as nat
    else if 'a' <= c <= 'z' then (c - 'a') as nat + 10
    else if 'A' <= c <= 'Z' then (c - 'A') as nat + 10
    else 99
  }

  /** The scanner: the value, the number of digits, the kind of the previous character, a misplaced separator, and
      whether it met a character that is not a digit of the base. */
  datatype Scan = Scan(value: nat, count: nat, prev: char, bad: bool, stopped: bool)

  function ScanChar(base: nat, st: Scan, c: char): Scan {
    if st.stopped then st
    else if c == '_' then st.(prev := '_', bad := st.bad || st.prev != '0')
    else if Digit(c) >= base then st.(stopped := true)
    else Scan(st.value * base + Digit(c), st.count + 1, '0', st.bad, false)
  }

  function ScanAll(base: nat, st: Scan, s: string): Scan {
    if s == "" then st else ScanChar(base, ScanAll(base, st, s[..|s| - 1]), s[|s| - 1])
  }

  /** The whole text must be consumed, with separators only between digits. */
  function Finish(st: Scan, zeroOk: bool): Option<nat> {
    if st.stopped || st.bad || st.prev == '_' then None
    else if st.count == 0 && !zeroOk then None
    else Some(st.value)
  }

  function SetNat(s: string): Option<nat> {
    if s == "" then None
    else if s[0] != '0' then Finish(ScanAll(10, SCAN_START, s), false)
    else if |s| == 1 then Some(0)
    else
      var start := Scan(0, 0, '0', false, false);
      if s[1] == 'b' || s[1] == 'B' then Finish(ScanAll(2, start, s[2..]), false)
      else if s[1] == 'o' || s[1] == 'O' then Finish(ScanAll(8, start, s[2..]), false)
      else if s[1] == 'x' || s[1] == 'X' then Finish(ScanAll(16, start, s[2..]), false)
      else Finish(ScanAll(8, start, s[1..]), true)
  }

  /** `new(big.Int).SetString(s, 0)`. */
  function SetString(s: string): Option<int> {
    var negative := s != "" && s[0] == '-';
    var n := SetNat(if s != "" && (s[0] == '-' || s[0] == '+') then s[1..] else s);
    if n.None? then None else Some(if negative then 0 - n.value as int else n.value as int)
  }

  // ---- parsing --------------------------------------------------------------------------------

  predicate EndsWithQuote(s: string) { s != "" && s[|s| - 1] == '\'' }

  /** One component. */
  function ParseComponent(text: string): (v: Option<nat>)
    ensures v.Some? ==> v.value < TWO_32
  {
    var c := TrimSpace(text);
    var hard := EndsWithQuote(c);
    var digits := if hard then TrimSpace(c[..|c| - 1]) else c;
    var n := SetString(digits);
    var limit := TWO_32 - 1 - (if hard then HARDENED else 0);
    if n.None? || n.value < 0 || n.value > limit then None
    else Some((if hard then HARDENED else 0) + n.value)
  }

  function ParseAll(parts: seq<string>): Option<Path> {
    if parts == [] then Some([])
    else
      var init := ParseAll(parts[..|parts| - 1]);
      var last := ParseComponent(parts[|parts| - 1]);
      if init.None? || last.None? then None else Some(init.value + [last.value])
  }

  /** What `ParseDerivationPath` makes of a text. */
  function Parse(text: string): Option<Path> {
    var parts := Split(text);
    if TrimSpace(parts[0]) == "" then None
    else if TrimSpace(parts[0]) == "m" then
      if |parts| == 1 then None else ParseAll(parts[1..])
    else
      var p := ParseAll(parts);
      if p.None? then None else Some(DEFAULT_ROOT + p.value)
  }

  lemma {:induction false} ParsePrefix(parts: seq<string>, i: nat)
    requires i <= |parts|
    ensures ParseAll(parts[..i]).None? ==> ParseAll(parts).None?
    decreases |parts|
  {
    if i < |parts| {
      assert parts[..|parts| - 1][..i] == parts[..i];
      ParsePrefix(parts[..|parts| - 1], i);
    } else {
      assert parts[..i] == parts;
    }
  }

  /** `ParseDerivationPath`. */
  method ParseDerivationPath(text: string) returns (path: Option<Path>)
    ensures path == Parse(text)
  {
    hide Split, TrimSpace, ParseComponent;
    var components := Split(text);
    var result: Path := [];
    if TrimSpace(components[0]) == "" {
      return None;
    } else if TrimSpace(components[0]) == "m" {
      components := components[1..];
    } else {
      result := DEFAULT_ROOT;
    }
    if |components| == 0 {
      return None;
    }
    ghost var root := result;
    for i := 0 to |components|
      invariant ParseAll(components[..i]).Some? && result == root + ParseAll(components[..i]).value
    {
      assert components[..i + 1][..i] == components[..i];
      ParsePrefix(components, i + 1);
      var value := ReadComponent(components[i]);
      if value.None? {
        return None;
      }
      result := result + [value.value];
    }
    assert components[..|components|] == components;
    assert [] + ParseAll(components).value == ParseAll(components).value;
    return Some(result);
  }

  /** One turn of its loop. */
  method ReadComponent(text: string) returns (v: Option<nat>)
    ensures v == ParseComponent(text)
  {
    hide TrimSpace, SetString;
    var component := TrimSpace(text);
    var value := 0;
    if EndsWithQuote(component) {
      value := HARDENED;
      component := TrimSpace(component[..|component| - 1]);
    }
    var bigval := SetString(component);
    var max := TWO_32 - 1 - value;
    if bigval.None? || bigval.value < 0 || bigval.value > max {
      return None;
    }
    return Some(value + bigval.value);
  }

  // ---- printing -------------------------------------------------------------------------------

  /** `%d`. */
  function Decimal(n: nat): string {
    if n < 10 then [LastDigit(n)] else Decimal(n / 10) + [LastDigit(n)]
  }

  function LastDigit(n: nat): char { '0' + (n % 10) as char }

  function PrintComponent(v: nat): string {
    if v >= HARDENED then Decimal(v - HARDENED) + "'" else Decimal(v)
  }

  function Print(p: Path): string {
    if p == [] then "m" else Print(p[..|p| - 1]) + "/" + PrintComponent(p[|p| - 1])
  }

  /** `DerivationPath.String`. */
  method PathString(path: Path) returns (result: string)
    ensures result == Print(path)
  {
    result := "m";
    for i := 0 to |path|
      invariant result == Print(path[..i])
    {
      assert path[..i + 1][..i] == path[..i];
      var component := path[i];
      var hardened := false;
      if component >= HARDENED {
        component := component - HARDENED;
        hardened := true;
      }
      ghost var before := result;
      result := result + "/" + Decimal(component);
      if hardened {
        result := result + "'";
        assert result == before + "/" + (Decimal(component) + "'");
      }
    }
    assert path[..|path|] == path;
  }

  // ---- round trip -----------------------------------------------------------------------------

  ghost predicate AllDigits(s: string) {
    s != "" && (forall i :: 0 <= i < |s| ==> '0' <= s[i] <= '9')
  }

  lemma DigitReads(n: nat)
    ensures '0' <= LastDigit(n) <= '9' && Digit(LastDigit(n)) == n % 10 && (LastDigit(n) == '0' <==> n % 10 == 0)
  {
  }

  lemma ScanSnoc(base: nat, st: Scan, s: string, c: char)
    ensures ScanAll(base, st, s + [c]) == ScanChar(base, ScanAll(base, st, s), c)
  {
    hide ScanChar;
    assert (s + [c])[..|s|] == s;
  }

  lemma Tens(n: nat)
    requires n >= 10
    ensures n == n / 10 * 10 + n % 10 && 0 < n / 10 < n
  {
  }

  lemma DecimalStep(n: nat)
    ensures Decimal(n) == (if n < 10 then "" else Decimal(n / 10)) + [LastDigit(n)]
  {
    if n < 10 {
      assert "" + [LastDigit(n)] == [LastDigit(n)];
    }
  }

  /** A decimal numeral is digits and starts with zero only if it is zero. */
  lemma {:induction false} DecimalDigits(n: nat)
    ensures AllDigits(Decimal(n)) && (Decimal(n)[0] == '0' <==> n == 0)
  {
    hide Decimal, LastDigit;
    DecimalStep(n);
    DigitReads(n);
    if n >= 10 {
      Tens(n);
      DecimalDigits(n / 10);
    }
  }

  const SCAN_START := Scan(0, 0, '.', false, false)

  /** Scanning a decimal numeral gives its number. */
  lemma {:induction false} DecimalScans(n: nat)
    ensures var st := ScanAll(10, SCAN_START, Decimal(n));
            st.value == n && st.count > 0 && st.prev == '0' && !st.bad && !st.stopped
  {
    hide Decimal, LastDigit, Digit, ScanAll;
    var init := if n < 10 then "" else Decimal(n / 10);
    DecimalStep(n);
    DigitReads(n);
    ScanSnoc(10, SCAN_START, init, LastDigit(n));
    if n < 10 {
      ScanNothing(10, SCAN_START);
    } else {
      Tens(n);
      DecimalScans(n / 10);
    }
  }

  lemma ScanNothing(base: nat, st: Scan)
    ensures ScanAll(base, st, "") == st
  {
  }

  lemma DecimalReads(n: nat)
    ensures SetString(Decimal(n)) == Some(n)
  {
    DecimalScans(n);
    DecimalDigits(n);
    var s := Decimal(n);
    assert s[0] != '-' && s[0] != '+';
    if n == 0 {
      assert Decimal(0) == ['0'];
    }
    hide Decimal, ScanAll;
  }

  lemma TrimsNothing(s: string)
    requires s != "" && !IsSpace(s[0]) && !IsSpace(s[|s| - 1])
    ensures TrimSpace(s) == s
  {
  }

  lemma ComponentReads(v: nat)
    requires v < TWO_32
    ensures ParseComponent(PrintComponent(v)) == Some(v)
  {
    var hard := v >= HARDENED;
    var n := if hard then v - HARDENED else v;
    var digits := Decimal(n);
    DecimalDigits(n);
    DecimalReads(n);
    TrimsNothing(digits);
    hide Decimal, SetString, TrimSpace;
    var c := PrintComponent(v);
    assert c == if hard then digits + "'" else digits;
    TrimsNothing(c);
    if hard {
      assert c[..|c| - 1] == digits;
    }
  }

  ghost predicate NoSlash(s: string) { forall i :: 0 <= i < |s| ==> s[i] != '/' }

  /** Splitting stops at the first slash. */
  lemma {:induction false} SplitsFirst(c: string, rest: string)
    requires NoSlash(c)
    ensures Split(c + "/" + rest) == [c] + Split(rest)
    decreases |c|
  {
    var s := c + "/" + rest;
    if c == "" {
      assert s[0] == '/' && s[1..] == rest;
    } else {
      assert s[0] == c[0] && s[1..] == c[1..] + "/" + rest;
      SplitsFirst(c[1..], rest);
      assert [c[0]] + c[1..] == c;
    }
  }

  lemma {:induction false} SplitsAlone(c: string)
    requires NoSlash(c)
    ensures Split(c) == [c]
    decreases |c|
  {
    if c != "" {
      SplitsAlone(c[1..]);
      assert [c[0]] + c[1..] == c;
    }
  }

  /** A new last component splits off. */
  lemma {:induction false} SplitsLast(s: string, c: string)
    requires NoSlash(c)
    ensures Split(s + "/" + c) == Split(s) + [c]
    decreases |s|
  {
    var t := s + "/" + c;
    if s == "" {
      assert t[0] == '/' && t[1..] == c;
      SplitsAlone(c);
    } else {
      assert t[0] == s[0] && t[1..] == s[1..] + "/" + c;
      SplitsLast(s[1..], c);
    }
  }

  lemma PrintsNoSlash(v: nat)
    ensures NoSlash(PrintComponent(v))
  {
    hide Decimal;
    DecimalDigits(if v >= HARDENED then v - HARDENED else v);
  }

  ghost function Components(p: Path): seq<string> {
    if p == [] then [] else Components(p[..|p| - 1]) + [PrintComponent(p[|p| - 1])]
  }

  lemma {:induction false} PrintSplits(p: Path)
    ensures Split(Print(p)) == ["m"] + Components(p)
  {
    if p == [] {
      SplitsAlone("m");
    } else {
      var init := p[..|p| - 1];
      var c := PrintComponent(p[|p| - 1]);
      PrintSplits(init);
      PrintsNoSlash(p[|p| - 1]);
      SplitsLast(Print(init), c);
      hide Split, PrintComponent;
      assert Print(p) == Print(init) + "/" + c;
    }
  }

  lemma {:induction false} ComponentsRead(p: Path)
    requires IsPath(p)
    ensures |Components(p)| == |p| && ParseAll(Components(p)) == Some(p)
  {
    if p != [] {
      var init := p[..|p| - 1];
      ComponentsRead(init);
      ComponentReads(p[|p| - 1]);
      hide ParseComponent, PrintComponent, ParseAll;
      ParseSnoc(Components(init), PrintComponent(p[|p| - 1]));
      assert init + [p[|p| - 1]] == p;
    }
  }

  lemma ParseSnoc(parts: seq<string>, c: string)
    ensures ParseAll(parts + [c]) ==
              if ParseAll(parts).None? || ParseComponent(c).None? then None
              else Some(ParseAll(parts).value + [ParseComponent(c).value])
  {
    hide ParseComponent;
    assert (parts + [c])[..|parts|] == parts;
  }

  /** Parsing the printed form gives back the path, for every path but the empty one, which the parser refuses. */
  lemma PathRoundTrip(p: Path)
    requires IsPath(p)
    ensures Parse(Print(p)) == if p == [] then None else Some(p)
  {
    PrintSplits(p);
    ComponentsRead(p);
    TrimsNothing("m");
    hide Split, TrimSpace, ParseComponent, Components, Print, ParseAll;
    var parts := Split(Print(p));
    assert parts[0] == "m" && parts[1..] == Components(p);
  }

  lemma {:induction false} PrintStarts(p: Path)
    requires p != []
    ensures |Print(p)| > 2 && Print(p)[..2] == "m/" && Components(p) != [] && Components(p)[0] == PrintComponent(p[0])
  {
    var init := p[..|p| - 1];
    DecimalDigits(if p[|p| - 1] >= HARDENED then p[|p| - 1] - HARDENED else p[|p| - 1]);
    hide Decimal;
    if init == [] {
      assert Print(init) == "m";
      assert Components(init) == [];
    } else {
      PrintStarts(init);
    }
  }

  /** Without its `m/` prefix the printed form is a relative path, appended to the default root. */
  lemma RelativeRoundTrip(p: Path)
    requires IsPath(p) && p != []
    ensures |Print(p)| > 2 && Parse(Print(p)[2..]) == Some(DEFAULT_ROOT + p)
  {
    hide Split, TrimSpace, ParseComponent, Print, ParseAll, PrintComponent;
    PrintStarts(p);
    PrintSplits(p);
    ComponentsRead(p);
    var rel := Print(p)[2..];
    assert Print(p) == "m" + "/" + rel by { assert Print(p) == Print(p)[..2] + rel; }
    SplitsFirst("m", rel);
    FirstIsPlain(p[0]);
    assert Split(rel) == (["m"] + Split(rel))[1..] == Components(p);
  }

  lemma FirstIsPlain(v: nat)
    ensures var t := TrimSpace(PrintComponent(v));
            t != "" && t != "m"
  {
    DecimalDigits(if v >= HARDENED then v - HARDENED else v);
    hide Decimal;
    TrimsNothing(PrintComponent(v));
    assert PrintComponent(v)[0] != 'm';
  }
}
