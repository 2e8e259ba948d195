/**
 * The text the profiler writes: the document header and footer, one event
 * fragment per ProfileResult, and the number and name formatting inside a
 * fragment. A reader for that same text is given alongside, so that every
 * writer here has an inverse it is proved against.
 */
module TraceFormat {
  import opened Wrappers

  /**
   * One completed measurement. `start` is the timer's start instant in
   * nanoseconds since the steady clock's epoch, `elapsed` the duration in
   * whole microseconds, `threadId` the reporting thread's identity.
   */
  datatype ProfileResult = ProfileResult(name: string, start: nat, elapsed: int, threadId: nat)

  const Quote: char := '"'
  const Apostrophe: char := '\''

  /** The file header; the empty object `{}` is the sentinel first event. */
  const Header: string := "{\"otherData\": {},\"traceEvents\":[{}"
  /** The file footer, closing the event array and the document. */
  const Footer: string := "]}"

  // ---------------------------------------------------------------------
  // Name sanitisation

  /** `std::replace` over a whole string. */
  function ReplaceAll(s: string, from: char, to: char): (r: string)
    ensures |r| == |s|
    ensures forall i :: 0 <= i < |s| ==> r[i] == (if s[i] == from then to else s[i])
  {
    if s == [] then [] else [if s[0] == from then to else s[0]] + ReplaceAll(s[1..], from, to)
  }

  /** The name as it is written: every double quote becomes an apostrophe. */
  function Sanitise(name: string): (r: string)
    ensures |r| == |name|
    ensures Quote !in r
    ensures forall i :: 0 <= i < |name| && name[i] != Quote ==> r[i] == name[i]
    ensures forall i :: 0 <= i < |name| && name[i] == Quote ==> r[i] == Apostrophe
  {
    ReplaceAll(name, Quote, Apostrophe)
  }

  lemma SanitiseIdempotent(name: string)
    ensures Sanitise(Sanitise(name)) == Sanitise(name)
  {
  }

  /** A name is written unchanged exactly when it holds no double quote. */
  lemma SanitiseFixedIff(name: string)
    ensures Sanitise(name) == name <==> Quote !in name
  {
  }

  // ---------------------------------------------------------------------
  // Numbers

  predicate IsDigit(c: char) {
    '0' <= c <= '9'
  }

  predicate AllDigits(s: string) {
    forall i :: 0 <= i < |s| ==> IsDigit(s[i])
  }

  function DigitChar(d: nat): (c: char)
    requires d < 10
    ensures IsDigit(c)
  {
    ('0' as int + d) as char
  }

  function DigitValue(c: char): (d: nat)
    requires IsDigit(c)
    ensures d < 10 && DigitChar(d) == c
  {
    var d := c as int - '0' as int;
    assert 0 <= d < 10;
    d
  }

  /** Decimal text of a natural number, as `operator<<` writes it. */
  function NatText(n: nat): (r: string)
    ensures 1 <= |r| && AllDigits(r)
    ensures r[0] == '0' <==> n == 0
  {
    if n < 10 then [DigitChar(n)] else NatText(n / 10) + [DigitChar(n % 10)]
  }

  /** Decimal text of an integer: a minus sign before a negative one. */
  function IntText(i: int): (r: string)
    ensures 1 <= |r|
    ensures r[0] == '-' <==> i < 0
  {
    if i < 0 then "-" + NatText(-i) else NatText(i)
  }

  /**
   * A duration of `ns` nanoseconds written as microseconds in fixed-point
   * notation with three decimals (`std::fixed` with `setprecision(3)`).
   */
  function FixedMicros(ns: nat): (r: string)
    ensures |r| >= 5 && r[|r| - 4] == '.'
    ensures AllDigits(r[|r| - 3..])
  {
    var frac := ns % 1000;
    NatText(ns / 1000) + "." + [DigitChar(frac / 100), DigitChar(frac / 10 % 10), DigitChar(frac % 10)]
  }

  // ---------------------------------------------------------------------
  // Event fragments

  const EventOpen: string := ",{\"cat\":\"function\",\"dur\":"
  const NameKey: string := ",\"name\":\""
  const AfterName: string := "\",\"ph\":\"X\",\"pid\":0,\"tid\":"
  const TsKey: string := ",\"ts\":"
  const EventClose: string := "}"

  /**
   * The fragment WriteProfile appends for one result: a leading comma and a
   * complete ("ph":"X") trace event whose fields come in a fixed order.
   */
  function Fragment(r: ProfileResult): (f: string)
    ensures EventOpen <= f && f[|f| - 1] == '}'
  {
    EventOpen + (IntText(r.elapsed) + (NameKey + (Sanitise(r.name) + (AfterName
      + (NatText(r.threadId) + (TsKey + (FixedMicros(r.start) + EventClose)))))))
  }

  /** The fragments of several results, in order. */
  function Events(rs: seq<ProfileResult>): string
  {
    if rs == [] then [] else Fragment(rs[0]) + Events(rs[1..])
  }

  /** The whole document of a session that recorded `rs` and was ended. */
  function Document(rs: seq<ProfileResult>): string
  {
    Header + Events(rs) + Footer
  }

  /** What a result looks like once written: its name sanitised. */
  function Written(r: ProfileResult): ProfileResult
  {
    r.(name := Sanitise(r.name))
  }

  function WrittenAll(rs: seq<ProfileResult>): (ws: seq<ProfileResult>)
    ensures |ws| == |rs|
    ensures forall i :: 0 <= i < |rs| ==> ws[i] == Written(rs[i])
  {
    if rs == [] then [] else [Written(rs[0])] + WrittenAll(rs[1..])
  }

  // ---------------------------------------------------------------------
  // Reading the format back

  /** Consumes the literal `lit` at the front of `s`. */
  function Expect(lit: string, s: string): (r: Option<string>)
    ensures r.Some? <==> lit <= s
    ensures r.Some? ==> s == lit + r.value
  {
    if lit <= s then Some(s[|lit|..]) else None
  }

  /** The length of the run of digits at the front of `s`. */
  function DigitRun(s: string): (k: nat)
    ensures k <= |s| && AllDigits(s[..k])
    ensures k < |s| ==> !IsDigit(s[k])
  {
    if s == [] || !IsDigit(s[0]) then 0 else 1 + DigitRun(s[1..])
  }

  function DigitsValue(s: string): nat
    requires AllDigits(s)
  {
    if s == [] then 0 else DigitsValue(s[..|s| - 1]) * 10 + DigitValue(s[|s| - 1])
  }

  /** Reads a non-empty run of digits. */
  function ParseNat(s: string): (r: Option<(nat, string)>)
    ensures r.Some? ==> |r.value.1| < |s|
  {
    var k := DigitRun(s);
    if k == 0 then None else Some((DigitsValue(s[..k]), s[k..]))
  }

  /** Reads an optional minus sign followed by digits. */
  function ParseInt(s: string): (r: Option<(int, string)>)
    ensures r.Some? ==> |r.value.1| < |s|
  {
    if s != [] && s[0] == '-' then
      var p :- ParseNat(s[1..]);
      var v: int := 0 - p.0 as int;
      Some((v, p.1))
    else
      var p :- ParseNat(s);
      Some((p.0, p.1))
  }

  /** Reads a fixed-point microsecond count with three decimals, as nanoseconds. */
  function ParseFixedMicros(s: string): (r: Option<(nat, string)>)
    ensures r.Some? ==> |r.value.1| < |s|
  {
    var whole :- ParseNat(s);
    var rest :- Expect(".", whole.1);
    if |rest| >= 3 && AllDigits(rest[..3]) then
      Some((whole.0 * 1000 + DigitsValue(rest[..3]), rest[3..]))
    else
      None
  }

  /** The index of the first double quote in `s`, or `|s|`. */
  function QuoteIndex(s: string): (k: nat)
    ensures k <= |s| && Quote !in s[..k]
    ensures k < |s| ==> s[k] == Quote
  {
    if s == [] || s[0] == Quote then 0 else 1 + QuoteIndex(s[1..])
  }

  /** Reads a name up to (not including) the next double quote. */
  function ParseName(s: string): (r: Option<(string, string)>)
    ensures r.Some? ==> |r.value.1| <= |s|
  {
    var k := QuoteIndex(s);
    if k < |s| then Some((s[..k], s[k..])) else None
  }

  /** Reads one event fragment from the front of `s`. */
  function ParseEvent(s: string): (r: Option<(ProfileResult, string)>)
    ensures r.Some? ==> |r.value.1| < |s|
  {
    var s1 :- Expect(EventOpen, s);
    var dur :- ParseInt(s1);
    var s2 :- Expect(NameKey, dur.1);
    var name :- ParseName(s2);
    var s3 :- Expect(AfterName, name.1);
    var tid :- ParseNat(s3);
    var s4 :- Expect(TsKey, tid.1);
    var ts :- ParseFixedMicros(s4);
    var s5 :- Expect(EventClose, ts.1);
    Some((ProfileResult(name.0, ts.0, dur.0, tid.0), s5))
  }

  /** Reads a sequence of event fragments that makes up all of `s`. */
  function ParseEvents(s: string): Option<seq<ProfileResult>>
    decreases |s|
  {
    if s == [] then Some([])
    else
      var e :- ParseEvent(s);
      var es :- ParseEvents(e.1);
      Some([e.0] + es)
  }

  /** Reads a whole document: the header, the events, the footer. */
  function ParseDocument(s: string): Option<seq<ProfileResult>>
  {
    var body :- Expect(Header, s);
    if |Footer| <= |body| && body[|body| - |Footer|..] == Footer then
      ParseEvents(body[..|body| - |Footer|])
    else
      None
  }

  // ---------------------------------------------------------------------
  // Round trips

  lemma ExpectLiteral(lit: string, rest: string)
    ensures Expect(lit, lit + rest) == Some(rest)
  {
  }

  lemma {:induction false} NatTextValue(n: nat)
    ensures DigitsValue(NatText(n)) == n
  {
    var t := NatText(n);
    if n >= 10 {
      assert t[..|t| - 1] == NatText(n / 10);
      NatTextValue(n / 10);
    }
  }

  lemma {:induction false} DigitRunOver(d: string, rest: string)
    requires AllDigits(d)
    requires rest == [] || !IsDigit(rest[0])
    ensures DigitRun(d + rest) == |d|
  {
    if d != [] {
      assert (d + rest)[1..] == d[1..] + rest;
      DigitRunOver(d[1..], rest);
    } else {
      assert d + rest == rest;
    }
  }

  lemma NatTextRoundTrip(n: nat, rest: string)
    requires rest == [] || !IsDigit(rest[0])
    ensures ParseNat(NatText(n) + rest) == Some((n, rest))
  {
    var t := NatText(n);
    DigitRunOver(t, rest);
    assert (t + rest)[..|t|] == t;
    assert (t + rest)[|t|..] == rest;
    NatTextValue(n);
  }

  lemma IntTextRoundTrip(i: int, rest: string)
    requires rest == [] || !IsDigit(rest[0])
    ensures ParseInt(IntText(i) + rest) == Some((i, rest))
  {
    var s := IntText(i) + rest;
    if i < 0 {
      var t := NatText(-i);
      AppendAssociative("-", t, rest);
      assert s[1..] == t + rest;
      NatTextRoundTrip(-i, rest);
      assert ParseNat(s[1..]) == Some((-i, rest));
    } else {
      NatTextRoundTrip(i, rest);
      assert s[0] != '-';
    }
  }

  lemma FixedMicrosRoundTrip(ns: nat, rest: string)
    ensures ParseFixedMicros(FixedMicros(ns) + rest) == Some((ns, rest))
  {
    var frac := ns % 1000;
    var d := [DigitChar(frac / 100), DigitChar(frac / 10 % 10), DigitChar(frac % 10)];
    assert FixedMicros(ns) + rest == NatText(ns / 1000) + ("." + (d + rest));
    NatTextRoundTrip(ns / 1000, "." + (d + rest));
    ExpectLiteral(".", d + rest);
    var after := d + rest;
    assert after[..3] == d;
    assert after[3..] == rest;
    assert DigitsValue(d) == frac by {
      assert d[..2][..1] == [d[0]];
      assert [d[0]][..0] == [];
      assert DigitsValue([d[0]]) == frac / 100;
      assert DigitsValue(d[..2]) == frac / 100 * 10 + frac / 10 % 10;
    }
  }

  lemma {:induction false} QuoteIndexOver(name: string, rest: string)
    requires Quote !in name
    requires rest != [] && rest[0] == Quote
    ensures QuoteIndex(name + rest) == |name|
  {
    if name != [] {
      assert (name + rest)[1..] == name[1..] + rest;
      QuoteIndexOver(name[1..], rest);
    } else {
      assert name + rest == rest;
    }
  }

  lemma NameRoundTrip(name: string, rest: string)
    requires Quote !in name
    requires rest != [] && rest[0] == Quote
    ensures ParseName(name + rest) == Some((name, rest))
  {
    var s := name + rest;
    QuoteIndexOver(name, rest);
    var k := QuoteIndex(s);
    assert s[..k] == name;
    assert s[k..] == rest;
  }

  /** Reading a fragment back yields the written result and stops after its `}`. */
  lemma FragmentRoundTrip(r: ProfileResult, rest: string)
    ensures ParseEvent(Fragment(r) + rest) == Some((Written(r), rest))
  {
    var name := Sanitise(r.name);
    var t5 := EventClose + rest;
    var t4 := FixedMicros(r.start) + t5;
    var t3 := TsKey + t4;
    var t2 := NatText(r.threadId) + t3;
    var t1 := AfterName + t2;
    var t0 := name + t1;
    var u1 := NameKey + t0;
    var u0 := IntText(r.elapsed) + u1;
    var f5 := EventClose;
    var f4 := FixedMicros(r.start) + f5;
    var f3 := TsKey + f4;
    var f2 := NatText(r.threadId) + f3;
    var f1 := AfterName + f2;
    var f0 := name + f1;
    var g1 := NameKey + f0;
    var g0 := IntText(r.elapsed) + g1;
    assert f4 + rest == t4;
    assert f3 + rest == t3;
    assert f2 + rest == t2;
    assert f1 + rest == t1;
    assert f0 + rest == t0;
    assert g1 + rest == u1;
    assert g0 + rest == u0;
    assert Fragment(r) + rest == EventOpen + u0;
    ExpectLiteral(EventOpen, u0);
    IntTextRoundTrip(r.elapsed, u1);
    ExpectLiteral(NameKey, t0);
    NameRoundTrip(name, t1);
    ExpectLiteral(AfterName, t2);
    NatTextRoundTrip(r.threadId, t3);
    ExpectLiteral(TsKey, t4);
    FixedMicrosRoundTrip(r.start, t5);
    ExpectLiteral(EventClose, rest);
  }

  /** The events of `rs` read back as exactly `|rs|` results, in order. */
  lemma {:induction false} EventsRoundTrip(rs: seq<ProfileResult>)
    ensures ParseEvents(Events(rs)) == Some(WrittenAll(rs))
  {
    if rs != [] {
      FragmentRoundTrip(rs[0], Events(rs[1..]));
      EventsRoundTrip(rs[1..]);
    }
  }

  /**
   * A finished document holds exactly the results recorded, one event per
   * result after the sentinel, in recording order, each with its name
   * sanitised.
   */
  lemma DocumentRoundTrip(rs: seq<ProfileResult>)
    ensures ParseDocument(Document(rs)) == Some(WrittenAll(rs))
  {
    var body := Events(rs) + Footer;
    assert Document(rs) == Header + body;
    ExpectLiteral(Header, body);
    assert body[|body| - |Footer|..] == Footer;
    assert body[..|body| - |Footer|] == Events(rs);
    EventsRoundTrip(rs);
  }

  /**
   * A session with no events: the file is the header closed by the footer,
   * a document whose only event is the sentinel `{}`, and it reads back as
   * no events at all.
   */
  lemma EmptySessionDocument()
    ensures Document([]) == "{\"otherData\": {},\"traceEvents\":[{}]}"
    ensures ParseDocument(Document([])) == Some([])
  {
  }

  // ---------------------------------------------------------------------
  // Helpers

  lemma AppendAssociative(a: string, b: string, c: string)
    ensures (a + b) + c == a + (b + c)
  {
  }
}
