/** metrics/logData.go SyncELogData.Parse: key/value pairs of a synce4l line, in whatever order;
    and stats.go UpdateSyncEClockState. */
module SyncELog {
  import opened Int64s
  import opened Options
  import opened SyncStates

  type Byte = x: int | 0 <= x < 256

  // ----- Numbers, as strconv reads them

  function Digit(c: char): (r: int) {
    if '0' <= c <= '9' then c as int - '0' as int
    else if 'a' <= c <= 'f' then c as int - 'a' as int + 10
    else if 'A' <= c <= 'F' then c as int - 'A' as int + 10
    else 16
  }

  datatype Unsigned = Value(n: nat) | OutOfRange | NoNumber

  /** ParseUint up to this maximum: it stops at the first character that is no digit or that takes
      the value over the maximum, whichever comes first. */
  function ParseUint(s: string, base: nat, max: nat): (r: Unsigned)
    requires base <= 16
    ensures r.Value? ==> r.n <= max
  {
    if s == "" then NoNumber
    else
      var d := Digit(s[|s| - 1]);
      var before := if |s| == 1 then Value(0) else ParseUint(s[..|s| - 1], base, max);
      if !before.Value? then before
      else if d >= base then NoNumber
      else if before.n * base + d > max then OutOfRange
      else Value(before.n * base + d)
  }

  /** A failure stays the same whatever follows it. */
  lemma {:induction false} FirstFailure(s: string, more: string, base: nat, max: nat)
    requires base <= 16 && s != "" && !ParseUint(s, base, max).Value?
    ensures ParseUint(s + more, base, max) == ParseUint(s, base, max)
  {
    if more == "" {
      assert s + more == s;
    } else {
      FirstFailure(s, more[..|more| - 1], base, max);
      assert (s + more)[..|s + more| - 1] == s + more[..|more| - 1];
    }
  }

  /** ParseUint(s, 16, 8). */
  function ParseHex8(s: string): (r: Option<Byte>) {
    match ParseUint(s, 16, 255)
    case Value(n) => Some(n)
    case _ => None
  }

  datatype Number = Number(value: Int64, ok: bool)

  /** ParseInt(s, 10, 64): out of range it gives the nearest int64 and an error, and otherwise
      zero and an error where s is no number. */
  function ParseInt(s: string): (r: Number) {
    var signed := s != "" && (s[0] == '-' || s[0] == '+');
    var negative := signed && s[0] == '-';
    match ParseUint(if signed then s[1..] else s, 10, TWO64 - 1)
    case NoNumber => Number(0, false)
    case OutOfRange => Number(if negative then MIN64 else MAX64, false)
    case Value(n) =>
      if negative then (if n <= MAX64 + 1 then Number(-(n as int), true) else Number(MIN64, false))
      else if n <= MAX64 then Number(n, true)
      else Number(MAX64, false)
  }

  // ----- The record

  datatype Pair = Pair(key: string, value: string)

  datatype Record = Record(process: string, timestamp: Int64, config: string, iface: string, device: string,
                           eecState: string, clockQuality: string, extQL: Byte, ql: Byte, networkOption: Int64,
                           state: string, extendedQlEnabled: bool)

  const EMPTY := Record("", 0, "", "", "", "", "", 0, 0, 0, "", false)

  datatype Error = NotEnoughFields | InvalidTimestamp

  function TrimHexPrefix(s: string): (text: string) {
    if |s| >= 2 && s[0] == '0' && s[1] == 'x' then s[2..] else s
  }

  function ByteOr(s: string, was: Byte): (r: Byte) {
    match ParseHex8(TrimHexPrefix(s))
    case Some(b) => b
    case None => was
  }

  datatype Key = EecState | ClockQuality | ExtQL | QL | Device | NetworkOption | OtherKey

  function KeyOf(key: string): (r: Key) {
    if key == "eec_state" then EecState
    else if key == "clock_quality" then ClockQuality
    else if key == "ext_ql" then ExtQL
    else if key == "ql" then QL
    else if key == "device" then Device
    else if key == "network_option" then NetworkOption
    else OtherKey
  }

  lemma KeysAre()
    ensures KeyOf("eec_state") == EecState && KeyOf("clock_quality") == ClockQuality && KeyOf("ext_ql") == ExtQL
    ensures KeyOf("ql") == QL && KeyOf("device") == Device && KeyOf("network_option") == NetworkOption
  {
    assert "clock_quality"[0] == 'c' && "ext_ql"[1] == 'x' && "device"[0] == 'd' && "network_option"[0] == 'n';
  }

  lemma SameKey(a: string, b: string)
    requires KeyOf(a) == KeyOf(b) != OtherKey
    ensures a == b
  {
  }

  /** The switch: what one pair sets. */
  function Set(r: Record, p: Pair): (record: Record) {
    match KeyOf(p.key)
    case EecState => r.(eecState := p.value)
    case ClockQuality => r.(clockQuality := p.value)
    case ExtQL => r.(extQL := ByteOr(p.value, r.extQL), extendedQlEnabled := true)
    case QL => r.(ql := ByteOr(p.value, r.ql))
    case Device => r.(device := p.value)
    case NetworkOption => r.(networkOption := ParseInt(p.value).value)
    case OtherKey => r
  }

  function SetAll(r: Record, pairs: seq<Pair>): (record: Record) {
    if pairs == [] then r else Set(SetAll(r, pairs[..|pairs| - 1]), pairs[|pairs| - 1])
  }

  /** The pairs from the fifth token on and below the i-th. */
  function PairsBelow(out: seq<string>, i: nat): (r: seq<Pair>)
    requires i <= |out|
  {
    if i < 6 then [] else PairsBelow(out, i - 2) + [Pair(out[i - 2], out[i - 1])]
  }

  /** The pairs between the interface and the state; an odd token before the state is ignored. */
  function PairsOf(out: seq<string>): (r: seq<Pair>)
    requires |out| >= 10
  {
    PairsBelow(out, if |out| % 2 == 0 then |out| - 2 else |out| - 1)
  }

  lemma Unread(r: Record, out: seq<string>)
    requires |out| >= 10
    ensures SetAll(r, PairsBelow(out, 4)) == r
  {
  }

  lemma NextPair(r: Record, out: seq<string>, i: nat)
    requires 4 <= i < |out| - 2
    ensures SetAll(r, PairsBelow(out, i + 2)) == Set(SetAll(r, PairsBelow(out, i)), Pair(out[i], out[i + 1]))
  {
    hide Set;
    var pairs := PairsBelow(out, i + 2);
    assert pairs[..|pairs| - 1] == PairsBelow(out, i);
  }

  lemma AllRead(out: seq<string>, i: nat)
    requires |out| >= 10 && |out| - 2 <= i <= |out| - 1 && i % 2 == 0
    ensures PairsBelow(out, i) == PairsOf(out)
  {
  }

  function ParseSpec(was: Record, out: seq<string>): (r: Record)
    requires |out| >= 10
  {
    SetAll(was.(process := out[0], timestamp := ParseInt(out[1]).value, config := out[2], iface := out[3],
                networkOption := 0, state := out[|out| - 1], extendedQlEnabled := false),
           PairsOf(out))
  }

  class SyncELogData {
    var process: string
    var timestamp: Int64
    var config: string
    var iface: string
    var device: string
    var eecState: string
    var clockQuality: string
    var extQL: Byte
    var ql: Byte
    var networkOption: Int64
    var state: string
    var extendedQlEnabled: bool

    function View(): (r: Record)
      reads this
    {
      Record(process, timestamp, config, iface, device, eecState, clockQuality, extQL, ql, networkOption, state,
             extendedQlEnabled)
    }

    constructor ()
      ensures View() == EMPTY
    {
      process, timestamp, config, iface, device, eecState, clockQuality := "", 0, "", "", "", "", "";
      extQL, ql, networkOption, state, extendedQlEnabled := 0, 0, 0, "", false;
    }

    method Parse(out: seq<string>) returns (err: Option<Error>)
      modifies this
      ensures err == if |out| < 10 then Some(NotEnoughFields)
                     else if !ParseInt(out[1]).ok then Some(InvalidTimestamp) else None
      ensures View() == if err.Some? then old(View()) else ParseSpec(old(View()), out)
    {
      hide ParseInt, SetAll, PairsOf;
      if |out| < 10 {
        return Some(NotEnoughFields);
      }
      if !ParseInt(out[1]).ok {
        return Some(InvalidTimestamp);
      }
      process, timestamp, config, iface := out[0], ParseInt(out[1]).value, out[2], out[3];
      networkOption, state, extendedQlEnabled := 0, out[|out| - 1], false;
      ParsePairs(out);
      return None;
    }

    /** The loop, two tokens at a time. */
    method ParsePairs(out: seq<string>)
      requires |out| >= 10
      modifies this
      ensures View() == SetAll(old(View()), PairsOf(out))
    {
      hide SetAll, Set, PairsOf;
      var i := 4;
      Unread(old(View()), out);
      while i < |out| - 2
        invariant 4 <= i <= |out| - 1 && i % 2 == 0
        invariant View() == SetAll(old(View()), PairsBelow(out, i))
      {
        NextPair(old(View()), out, i);
        SetPair(out[i], out[i + 1]);
        i := i + 2;
      }
      AllRead(out, i);
    }

    method SetPair(key: string, value: string)
      modifies this
      ensures View() == Set(old(View()), Pair(key, value))
    {
      hide KeyOf, ParseInt, ParseHex8, TrimHexPrefix, ParseUint;
      match KeyOf(key)
      case EecState => eecState := value;
      case ClockQuality => clockQuality := value;
      case ExtQL =>
        var b := ParseHex8(TrimHexPrefix(value));
        if b.Some? {
          extQL := b.value;
        }
        extendedQlEnabled := true;
      case QL =>
        var b := ParseHex8(TrimHexPrefix(value));
        if b.Some? {
          ql := b.value;
        }
      case Device => device := value;
      case NetworkOption => networkOption := ParseInt(value).value;
      case OtherKey =>
    }
  }

  // ----- The order of the pairs

  predicate KnownKey(key: string) {
    KeyOf(key) != OtherKey
  }

  predicate Distinct(pairs: seq<Pair>) {
    forall i, j :: 0 <= i < j < |pairs| && KnownKey(pairs[i].key) ==> pairs[i].key != pairs[j].key
  }

  lemma Commute(r: Record, p: Pair, q: Pair)
    requires p.key != q.key || !KnownKey(p.key)
    ensures Set(Set(r, p), q) == Set(Set(r, q), p)
  {
    if KnownKey(p.key) && KeyOf(p.key) == KeyOf(q.key) {
      SameKey(p.key, q.key);
    }
    hide KeyOf, ByteOr, ParseInt;
  }

  /** A pair may be moved to the end of pairs with other keys. */
  lemma {:induction false} MoveToEnd(r: Record, before: seq<Pair>, p: Pair, after: seq<Pair>)
    requires forall i :: 0 <= i < |after| && KnownKey(p.key) ==> after[i].key != p.key
    ensures SetAll(r, before + [p] + after) == SetAll(r, before + after + [p])
  {
    hide Set;
    if after == [] {
      assert before + [p] + after == before + after + [p];
    } else {
      var rest, q := after[..|after| - 1], after[|after| - 1];
      MoveToEnd(r, before, p, rest);
      SetLast(r, before + [p] + rest, q);
      SetLast(r, before + rest, p);
      SetLast(r, before + rest, q);
      SetLast(r, before + after, p);
      assert before + [p] + after == before + [p] + rest + [q] && before + after == before + rest + [q];
      Commute(SetAll(r, before + rest), p, q);
    }
  }

  lemma SetLast(r: Record, pairs: seq<Pair>, p: Pair)
    ensures SetAll(r, pairs + [p]) == Set(SetAll(r, pairs), p)
  {
    hide Set;
    assert (pairs + [p])[..|pairs|] == pairs;
  }

  /** Pairs with distinct known keys may come in any order. */
  lemma {:induction false} OrderIsIrrelevant(r: Record, ps: seq<Pair>, qs: seq<Pair>)
    requires Distinct(ps) && multiset(ps) == multiset(qs)
    ensures SetAll(r, ps) == SetAll(r, qs)
    decreases |ps|
  {
    hide Set, KnownKey, SetAll;
    assert |ps| == |multiset(ps)| == |multiset(qs)| == |qs|;
    if ps != [] {
      var rest, p := ps[..|ps| - 1], ps[|ps| - 1];
      assert ps == rest + [p] && p in multiset(qs);
      var before, after := SplitAt(qs, p);
      RemoveOne(rest, p, before, after);
      OthersDiffer(rest, p, before + after);
      assert forall j :: 0 <= j < |after| ==> (before + after)[|before| + j] == after[j];
      MoveToEnd(r, before, p, after);
      OrderIsIrrelevant(r, rest, before + after);
      SetLast(r, rest, p);
      SetLast(r, before + after, p);
    }
  }

  lemma SplitAt(pairs: seq<Pair>, p: Pair) returns (before: seq<Pair>, after: seq<Pair>)
    requires p in pairs
    ensures pairs == before + [p] + after
  {
    var i :| 0 <= i < |pairs| && pairs[i] == p;
    before, after := pairs[..i], pairs[i + 1..];
  }

  lemma RemoveOne(rest: seq<Pair>, p: Pair, before: seq<Pair>, after: seq<Pair>)
    requires multiset(rest + [p]) == multiset(before + [p] + after)
    ensures multiset(rest) == multiset(before + after)
  {
    assert multiset(rest + [p]) == multiset(rest) + multiset{p};
    assert multiset(before + [p] + after) == multiset(before) + multiset{p} + multiset(after);
    assert multiset(before + after) == multiset(before) + multiset(after);
    assert multiset(rest) + multiset{p} - multiset{p} == multiset(rest);
  }

  lemma OthersDiffer(rest: seq<Pair>, p: Pair, others: seq<Pair>)
    requires Distinct(rest + [p]) && multiset(rest) == multiset(others)
    ensures forall i :: 0 <= i < |others| && KnownKey(p.key) ==> others[i].key != p.key
    ensures Distinct(rest)
  {
    hide KnownKey;
    var all := rest + [p];
    assert all[|rest|] == p && forall i :: 0 <= i < |rest| ==> all[i] == rest[i];
    assert forall q :: q in rest ==> !KnownKey(q.key) || q.key != p.key;
    forall i | 0 <= i < |others| && KnownKey(p.key) ensures others[i].key != p.key {
      assert others[i] in multiset(rest);
      assert others[i] in rest;
    }
  }

  // ----- Lines

  function Tokens(pairs: seq<Pair>): (r: seq<string>) {
    if pairs == [] then []
    else Tokens(pairs[..|pairs| - 1]) + [pairs[|pairs| - 1].key, pairs[|pairs| - 1].value]
  }

  function LineOf(process: string, timestamp: string, config: string, iface: string, pairs: seq<Pair>, state: string)
      : (out: seq<string>)
  {
    [process, timestamp, config, iface] + Tokens(pairs) + [state]
  }

  lemma {:induction false} PairsOfTokens(head: seq<string>, pairs: seq<Pair>, tail: seq<string>)
    requires |head| == 4
    ensures |Tokens(pairs)| == 2 * |pairs|
    ensures PairsBelow(head + Tokens(pairs) + tail, 4 + 2 * |pairs|) == pairs
  {
    if pairs != [] {
      var before, p := pairs[..|pairs| - 1], pairs[|pairs| - 1];
      var pair := [p.key, p.value];
      assert Tokens(pairs) == Tokens(before) + pair;
      PairsOfTokens(head, before, pair + tail);
      hide Tokens, PairsBelow;
      Regroup(head, Tokens(before), pair, tail);
      var out := head + Tokens(pairs) + tail;
      PairIsNext(head + Tokens(before), pair, tail);
      OnePairMore(out, 4 + 2 * |before|);
    }
  }

  lemma Regroup(a: seq<string>, b: seq<string>, c: seq<string>, d: seq<string>)
    ensures a + (b + c) + d == a + b + (c + d)
  {
  }

  lemma PairIsNext(before: seq<string>, pair: seq<string>, tail: seq<string>)
    requires |pair| == 2
    ensures
      var out := before + (pair + tail);
      out[|before|] == pair[0] && out[|before| + 1] == pair[1]
  {
  }

  lemma OnePairMore(out: seq<string>, i: nat)
    requires 4 <= i && i + 2 <= |out|
    ensures PairsBelow(out, i + 2) == PairsBelow(out, i) + [Pair(out[i], out[i + 1])]
  {
  }

  /** A line of at least three pairs is parsed as those pairs. */
  lemma LineParses(was: Record, head: seq<string>, pairs: seq<Pair>, state: string)
    requires |head| == 4 && |pairs| >= 3
    ensures
      var out := head + Tokens(pairs) + [state];
      && |out| >= 10
      && ParseSpec(was, out)
         == SetAll(was.(process := head[0], timestamp := ParseInt(head[1]).value, config := head[2], iface := head[3],
                        networkOption := 0, state := state, extendedQlEnabled := false), pairs)
  {
    hide ParseInt, SetAll;
    PairsOfTokens(head, pairs, [state]);
  }

  /** Lines that differ in the order of their pairs give the same record. */
  lemma {:induction false} PermutedLines(was: Record, head: seq<string>, ps: seq<Pair>, qs: seq<Pair>, state: string)
    requires |head| == 4 && |ps| >= 3 && Distinct(ps) && multiset(ps) == multiset(qs)
    ensures
      var left, right := head + Tokens(ps) + [state], head + Tokens(qs) + [state];
      |left| == |right| >= 10 && ParseSpec(was, left) == ParseSpec(was, right)
  {
    hide ParseInt, SetAll, ParseSpec;
    assert |ps| == |multiset(ps)| == |multiset(qs)| == |qs|;
    LineParses(was, head, ps, state);
    LineParses(was, head, qs, state);
    PairsOfTokens(head, ps, [state]);
    PairsOfTokens(head, qs, [state]);
    var start := was.(process := head[0], timestamp := ParseInt(head[1]).value, config := head[2], iface := head[3],
                      networkOption := 0, state := state, extendedQlEnabled := false);
    OrderIsIrrelevant(start, ps, qs);
  }

  // ----- The printer

  function DigitChar(d: nat): (c: char)
    requires d < 16
    ensures Digit(c) == d
  {
    if d < 10 then '0' + d as char else 'a' + (d - 10) as char
  }

  lemma LastDigit(n: nat, base: nat)
    requires 2 <= base <= n
    ensures 0 < n / base < n && 0 <= n % base < base && n == (n / base) * base + n % base
  {
    var q := n / base;
    assert n == base * q + n % base;
    assert q == 0 ==> base * q == 0;
    NonNegative(base - 2, q);
    Distribute(base - 2, 2, q);
  }

  function PrintDigits(n: nat, base: nat): (s: string)
    requires 2 <= base <= 16
    ensures s != "" && s[0] != '-' && s[0] != '+' && s[0] != 'x'
    decreases n
  {
    if n < base then [DigitChar(n)]
    else
      LastDigit(n, base);
      PrintDigits(n / base, base) + [DigitChar(n % base)]
  }

  lemma {:induction false} DigitsRoundTrip(n: nat, base: nat, max: nat)
    requires 2 <= base <= 16 && n <= max
    ensures ParseUint(PrintDigits(n, base), base, max) == Value(n)
    decreases n
  {
    if n >= base {
      LastDigit(n, base);
      var q, d := n / base, n % base;
      DigitsRoundTrip(q, base, max);
      assert PrintDigits(n, base) == PrintDigits(q, base) + [DigitChar(d)];
      AppendDigit(PrintDigits(q, base), q, d, base, max);
    }
  }

  lemma AppendDigit(s: string, q: nat, d: nat, base: nat, max: nat)
    requires 2 <= base <= 16 && d < base && s != "" && ParseUint(s, base, max) == Value(q) && q * base + d <= max
    ensures ParseUint(s + [DigitChar(d)], base, max) == Value(q * base + d)
  {
    assert (s + [DigitChar(d)])[..|s|] == s;
  }

  function PrintInt(n: Int64): (s: string) {
    if n < 0 then "-" + PrintDigits(-(n as int), 10) else PrintDigits(n, 10)
  }

  lemma IntRoundTrip(n: Int64)
    ensures ParseInt(PrintInt(n)) == Number(n, true)
  {
    hide PrintDigits, ParseUint;
    var digits: nat := if n < 0 then -(n as int) else n as int;
    var text := PrintDigits(digits, 10);
    DigitsRoundTrip(digits, 10, TWO64 - 1);
    if n < 0 {
      assert PrintInt(n) == "-" + text && ("-" + text)[1..] == text && ("-" + text)[0] == '-';
    } else {
      assert PrintInt(n) == text;
    }
  }

  lemma HexRoundTrip(b: Byte, was: Byte)
    ensures ByteOr("0x" + PrintDigits(b, 16), was) == b
  {
    DigitsRoundTrip(b, 16, 255);
    assert ("0x" + PrintDigits(b, 16))[2..] == PrintDigits(b, 16);
  }

  /** Every key with its value; ext_ql only where the extended quality level is enabled. */
  function PrintPairs(r: Record): (out: seq<Pair>) {
    [Pair("clock_quality", r.clockQuality), Pair("device", r.device), Pair("eec_state", r.eecState),
     Pair("network_option", PrintInt(r.networkOption)), Pair("ql", "0x" + PrintDigits(r.ql, 16))]
    + if r.extendedQlEnabled then [Pair("ext_ql", "0x" + PrintDigits(r.extQL, 16))] else []
  }

  /** A fresh object recovers the record from which a line was printed, its pairs in any order. */
  lemma RoundTrip(r: Record, ps: seq<Pair>)
    requires multiset(ps) == multiset(PrintPairs(r)) && (r.extendedQlEnabled || r.extQL == 0)
    ensures
      var out := LineOf(r.process, PrintInt(r.timestamp), r.config, r.iface, ps, r.state);
      |out| >= 10 && ParseInt(out[1]).ok && ParseSpec(EMPTY, out) == r
  {
    var head := [r.process, PrintInt(r.timestamp), r.config, r.iface];
    IntRoundTrip(r.timestamp);
    hide ParseInt, PrintInt, PrintDigits, ParseSpec, ByteOr, SetAll, Tokens;
    PermutedLines(EMPTY, head, PrintPairs(r), ps, r.state);
    assert |ps| == |multiset(ps)| == |multiset(PrintPairs(r))| == |PrintPairs(r)|;
    LineParses(EMPTY, head, ps, r.state);
    LineParses(EMPTY, head, PrintPairs(r), r.state);
    PrintedPairs(r, EMPTY.(process := r.process, timestamp := r.timestamp, config := r.config, iface := r.iface,
                           state := r.state));
  }

  lemma NoneSet(r: Record)
    ensures SetAll(r, []) == r
  {
  }

  lemma PrintedPairs(r: Record, start: Record)
    requires r.extendedQlEnabled || r.extQL == 0
    requires start == r.(device := "", eecState := "", clockQuality := "", extQL := 0, ql := 0, networkOption := 0,
                         extendedQlEnabled := false)
    ensures SetAll(start, PrintPairs(r)) == r
  {
    PrintedFive(r, start);
    hide ParseInt, PrintInt, PrintDigits, ByteOr, SetAll, Set;
    var five := PrintPairs(r)[..5];
    if r.extendedQlEnabled {
      SetLast(start, five, PrintPairs(r)[5]);
      SetExtQL(SetAll(start, five), r.extQL);
      assert PrintPairs(r) == five + [PrintPairs(r)[5]];
    } else {
      assert PrintPairs(r) == five;
    }
  }

  lemma SetExtQL(r: Record, b: Byte)
    ensures Set(r, Pair("ext_ql", "0x" + PrintDigits(b, 16))) == r.(extQL := b, extendedQlEnabled := true)
  {
    hide PrintDigits, ByteOr, ParseInt;
    HexRoundTrip(b, r.extQL);
    KeysAre();
  }

  lemma PrintedFive(r: Record, start: Record)
    ensures
      SetAll(start, PrintPairs(r)[..5])
      == start.(clockQuality := r.clockQuality, device := r.device, eecState := r.eecState,
                networkOption := r.networkOption, ql := r.ql)
  {
    IntRoundTrip(r.networkOption);
    HexRoundTrip(r.ql, start.ql);
    KeysAre();
    hide ParseInt, PrintInt, PrintDigits, ByteOr, KeyOf, SetAll;
    NoneSet(start);
    var five := PrintPairs(r)[..5];
    SetLast(start, five[..4], five[4]);
    SetLast(start, five[..3], five[3]);
    SetLast(start, five[..2], five[2]);
    SetLast(start, five[..1], five[1]);
    SetLast(start, [], five[0]);
    assert five[..4] == five[..3] + [five[3]] && five[..3] == five[..2] + [five[2]];
    assert five == five[..4] + [five[4]] && five[..2] == five[..1] + [five[1]] && five[..1] == [] + [five[0]];
  }

  // ----- The state of a SyncE device

  /** UpdateSyncEClockState: what the loop over the ports leaves, in whatever order. */
  function DeviceState(states: set<SyncState>): (state: SyncState) {
    if Holdover in states then Holdover else if FreeRun in states then FreeRun else Locked
  }

  method UpdateSyncEClockState(ports: map<string, SyncState>) returns (clockState: SyncState)
    ensures clockState == DeviceState(ports.Values)
  {
    clockState := Locked;
    var left := ports.Keys;
    ghost var seen: set<SyncState> := {};
    while left != {}
      invariant left <= ports.Keys
      invariant forall s :: s in seen <==> exists p :: p in ports.Keys - left && ports[p] == s
      invariant clockState == DeviceState(seen)
    {
      var p :| p in left;
      left := left - {p};
      seen := seen + {ports[p]};
      assert p in ports.Keys - left;
      match ports[p]
      case Holdover => clockState := Holdover;
      case FreeRun =>
        if clockState != Holdover {
          clockState := FreeRun;
        }
      case Locked =>
        if clockState != Holdover && clockState != FreeRun {
          clockState := Locked;
        }
      case Unset =>
    }
    assert seen == ports.Values;
  }

  /** Here a holdover outranks a freerun. A device is in the worst state of its ports, as events
      rank them, exactly unless it has ports in both, or none in any. */
  lemma DeviceAgainstWorst(states: set<SyncState>)
    ensures DeviceState(states) == WorstOf(states)
       <==> !(Holdover in states && FreeRun in states) && (exists s: Known :: s in states)
  {
    if exists s: Known :: s in states {
      var s: Known :| s in states;
      assert s == FreeRun || s == Holdover || s == Locked;
    } else {
      var f: Known, h: Known, l: Known := FreeRun, Holdover, Locked;
      assert f !in states && h !in states && l !in states;
    }
  }
}
