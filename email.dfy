/** The mail-readiness check: for each MX answer of a domain, the exchanger's
    preference and name, its first IPv4 and IPv6 address, the PTR name of its IPv4
    address and whether a DNSSEC-validated DNSKEY lookup of its name succeeds. */
module Email {
  import opened Text
  import opened Resolving

  // ===========================================================================
  // Signed 8-bit preference

  newtype Int8 = x: int | -128 <= x < 128

  predicate IsDigit(c: char) {
    '0' <= c <= '9'
  }

  predicate AllDigits(s: string) {
    forall i :: 0 <= i < |s| ==> IsDigit(s[i])
  }

  /** The value of a string of decimal digits, most significant first. */
  function DigitsValue(ds: string): (n: nat)
    requires AllDigits(ds)
  {
    if ds == [] then 0
    else DigitsValue(ds[..|ds| - 1]) * 10 + ((ds[|ds| - 1] as int) - ('0' as int))
  }

  /** Decimal parsing into a signed 8-bit integer: an optional '+' or '-', then at
      least one ASCII digit and nothing else; a value outside -128..127 is an error,
      as are the empty string and a lone sign. */
  function ParseI8(s: string): (r: Option<Int8>)
    ensures r.Some? ==> s != [] && (var d := if s[0] == '+' || s[0] == '-' then s[1..] else s; d != [] && AllDigits(d))
  {
    if s == [] then None
    else
      var negative := s[0] == '-';
      var digits := if s[0] == '+' || s[0] == '-' then s[1..] else s;
      if digits == [] || !AllDigits(digits) then None
      else
        var magnitude: int := DigitsValue(digits);
        var v := if negative then -magnitude else magnitude;
        if -128 <= v < 128 then Some(v as Int8) else None
  }

  /** On a numeral of one or more digits, with no sign, '+' or '-', parsing gives
      the numeral's value with that sign exactly when it lies in -128..127. */
  lemma ParseI8OfNumeral(ds: string)
    requires ds != [] && AllDigits(ds)
    ensures ParseI8(ds) == if DigitsValue(ds) < 128 then Some(DigitsValue(ds) as Int8) else None
    ensures ParseI8("+" + ds) == ParseI8(ds)
    ensures ParseI8("-" + ds) == if DigitsValue(ds) <= 128 then Some((-(DigitsValue(ds) as int)) as Int8) else None
  {
    assert IsDigit(ds[0]);
    assert ("+" + ds)[0] == '+' && ("+" + ds)[1..] == ds;
    assert ("-" + ds)[0] == '-' && ("-" + ds)[1..] == ds;
  }

  function DigitChar(d: nat): (c: char)
    requires d < 10
    ensures IsDigit(c) && (c as int) - ('0' as int) == d
  {
    ['0', '1', '2', '3', '4', '5', '6', '7', '8', '9'][d]
  }

  /** The decimal numeral of `n`, without leading zeros. */
  function ShowNat(n: nat): (s: string)
    ensures s != [] && AllDigits(s)
  {
    if n < 10 then [DigitChar(n)] else ShowNat(n / 10) + [DigitChar(n % 10)]
  }

  /** How a preference is written: its numeral, with a leading '-' when negative. */
  function ShowInt8(v: Int8): string {
    if v < 0 then "-" + ShowNat(-(v as int)) else ShowNat(v as int)
  }

  lemma {:induction false} DigitsValueOfShowNat(n: nat)
    ensures DigitsValue(ShowNat(n)) == n
  {
    var s := ShowNat(n);
    if n >= 10 {
      var prefix := ShowNat(n / 10);
      assert s[..|s| - 1] == prefix;
      DigitsValueOfShowNat(n / 10);
    }
  }

  /** Every preference value survives being written out and parsed again. */
  lemma ParseShowInt8(v: Int8)
    ensures ParseI8(ShowInt8(v)) == Some(v)
  {
    var n := if v < 0 then -(v as int) else v as int;
    DigitsValueOfShowNat(n);
    var s := ShowInt8(v);
    if v < 0 {
      assert s[0] == '-' && s[1..] == ShowNat(n);
    } else {
      assert IsDigit(s[0]);
    }
  }

  lemma ParseZero()
    ensures ParseI8("0") == Some(0)
  {
    assert "0"[..0] == "";
  }

  /** The value of a three-digit string. */
  lemma DigitsValueOfThree(ds: string)
    requires |ds| == 3 && AllDigits(ds)
    ensures DigitsValue(ds) == 100 * ((ds[0] as int) - ('0' as int)) + 10 * ((ds[1] as int) - ('0' as int))
                               + ((ds[2] as int) - ('0' as int))
  {
    assert ds[..1][..0] == [];
    assert DigitsValue(ds[..1]) == (ds[0] as int) - ('0' as int);
    assert ds[..2][..1] == ds[..1];
    assert DigitsValue(ds[..2]) == 10 * ((ds[0] as int) - ('0' as int)) + ((ds[1] as int) - ('0' as int));
    assert ds[..3 - 1] == ds[..2];
  }

  /** Parsing accepts a numeral with a sign or with leading zeros, up to both ends of
      the 8-bit range. */
  lemma ParseI8Accepts()
    ensures ParseI8("10") == Some(10)
    ensures ParseI8("-128") == Some(-128)
    ensures ParseI8("+007") == Some(7)
    ensures ParseI8("127") == Some(127)
  {
    assert "10"[..1] == "1" && "1"[..0] == "";
    assert "-128"[1..] == "128";
    DigitsValueOfThree("128");
    assert "+007"[1..] == "007";
    DigitsValueOfThree("007");
    DigitsValueOfThree("127");
  }

  /** Parsing rejects a value outside the 8-bit range, an empty string, a lone sign
      and a non-digit. */
  lemma ParseI8Rejects()
    ensures ParseI8("128") == None
    ensures ParseI8("200") == None
    ensures ParseI8("") == None
    ensures ParseI8("-") == None
    ensures ParseI8("+") == None
    ensures ParseI8("1a") == None
  {
    DigitsValueOfThree("128");
    DigitsValueOfThree("200");
    assert !IsDigit("1a"[1]);
  }

  /** The preference: token 4 parsed as an 8-bit integer, where a missing token reads
      as "0" and a token that does not parse gives 0. */
  function Preference(parts: seq<string>): (p: Int8)
    ensures |parts| < 5 ==> p == 0
    ensures |parts| >= 5 && ParseI8(parts[4]).None? ==> p == 0
    ensures |parts| >= 5 && ParseI8(parts[4]).Some? ==> p == ParseI8(parts[4]).value
  {
    ParseZero();
    match ParseI8(if 4 < |parts| then parts[4] else "0")
    case None => 0
    case Some(v) => v
  }

  /** A preference written in token 4 is read back exactly. */
  lemma PreferenceOfShown(parts: seq<string>, v: Int8)
    requires |parts| >= 5 && parts[4] == ShowInt8(v)
    ensures Preference(parts) == v
  {
    ParseShowInt8(v);
  }

  // ===========================================================================
  // First answer, last token

  /** The last whitespace-separated token of `line`, or "" when it has none. */
  function LastToken(line: string): (w: string)
    ensures w == "" <==> Tokens(line) == []
    ensures w != "" ==> IsWord(w) && w == Tokens(line)[|Tokens(line)| - 1]
  {
    var ts := Tokens(line);
    if ts == [] then "" else ts[|ts| - 1]
  }

  /** The single-record lookup helper's result for an answer: an error when the
      lookup failed, "" when it succeeded with no answers, and otherwise the last
      token of the first answer. */
  function RecordValue(answer: Option<seq<string>>): (r: Result<string>)
    ensures r.Err? <==> answer.None?
    ensures answer == Some([]) ==> r == Ok("")
    ensures answer.Some? && |answer.value| > 0 ==> r == Ok(LastToken(answer.value[0]))
  {
    match answer
    case None => Err(Resolve)
    case Some(lines) => if |lines| == 0 then Ok("") else Ok(LastToken(lines[0]))
  }

  /** Only the first answer matters: answers after it never change the result. */
  lemma RecordValueFirstOnly(first: string, more: seq<string>, other: seq<string>)
    ensures RecordValue(Some([first] + more)) == RecordValue(Some([first] + other))
    ensures RecordValue(Some([first] + more)).value == "" <==> Tokens(first) == []
  {
    assert ([first] + more)[0] == first && ([first] + other)[0] == first;
  }

  /** The last token of a rendering laid out as single-spaced words is its last word. */
  lemma LastTokenOfJoin(ws: seq<string>)
    requires AllWords(ws) && |ws| > 0
    ensures LastToken(Join(ws, " ")) == ws[|ws| - 1]
  {
    TokensOfJoin(ws);
  }

  function OrEmpty(r: Result<string>): string {
    match r
    case Ok(v) => v
    case Err(_) => ""
  }

  /** The DNSSEC probe's result: never an error, and true exactly when the validated
      DNSKEY lookup succeeded. */
  function DnssecStatus(answer: Option<seq<string>>): (r: Result<bool>)
    ensures r.Ok?
    ensures r.value <==> answer.Some?
  {
    match answer
    case Some(_) => Ok(true)
    case None => Ok(false)
  }

  // ===========================================================================
  // Reverse-lookup names (section 3.5 of RFC 1035)

  /** The '.'-separated pieces of `s` in reverse order, joined with '.'. */
  function ReverseLabels(s: string): string {
    Join(Reverse(Split(s, '.')), ".")
  }

  /** The name queried for the PTR record of an IPv4 address. */
  function InAddrArpa(ipv4: string): string {
    ReverseLabels(ipv4) + ".in-addr.arpa"
  }

  /** Reversing the labels twice restores the string, whatever it holds. */
  lemma ReverseLabelsInvolution(s: string)
    ensures ReverseLabels(ReverseLabels(s)) == s
  {
    var parts := Split(s, '.');
    var reversed := Reverse(parts);
    assert "." == ['.'];
    forall i | 0 <= i < |reversed|
      ensures '.' !in reversed[i]
    {
      assert reversed[i] == parts[|parts| - 1 - i];
    }
    SplitJoin(reversed, '.');
    ReverseReverse(parts);
    JoinSplit(s, '.');
  }

  /** Distinct addresses give distinct reverse-lookup names: the address can be read
      back from the name. */
  lemma InAddrArpaInjective(a: string, b: string)
    requires InAddrArpa(a) == InAddrArpa(b)
    ensures a == b
  {
    var ra, rb := ReverseLabels(a), ReverseLabels(b);
    assert ra == InAddrArpa(a)[..|ra|];
    assert |ra| == |rb|;
    assert rb == InAddrArpa(b)[..|rb|];
    ReverseLabelsInvolution(a);
    ReverseLabelsInvolution(b);
  }

  /** A dotted quad `a.b.c.d` gives `d.c.b.a.in-addr.arpa`. */
  lemma InAddrArpaOfQuad(a: string, b: string, c: string, d: string)
    requires '.' !in a && '.' !in b && '.' !in c && '.' !in d
    ensures InAddrArpa(Join([a, b, c, d], ".")) == Join([d, c, b, a], ".") + ".in-addr.arpa"
  {
    assert "." == ['.'];
    SplitJoin([a, b, c, d], '.');
    assert Reverse([a, b, c, d]) == [d, c, b, a];
  }

  lemma InAddrArpaExample()
    ensures InAddrArpa("192.0.2.10") == "10.2.0.192" + ".in-addr.arpa"
  {
    assert Join(["192", "0", "2", "10"], ".") == "192.0.2.10";
    InAddrArpaOfQuad("192", "0", "2", "10");
    assert Join(["10", "2", "0", "192"], ".") == "10.2.0.192";
  }

  /** An empty address gives the bare suffix. */
  lemma InAddrArpaOfEmpty()
    ensures InAddrArpa("") == ".in-addr.arpa"
  {
    assert Split("", '.') == [""];
    assert Reverse([""]) == [""];
  }

  // ===========================================================================
  // Mail exchangers

  /** One mail exchanger. */
  datatype Mx = Mx(name: string, ipv4: string, ipv6: string, ptr: string, preference: Int8, dnssec: bool)

  datatype EmailReport = EmailReport(mx: seq<Mx>)

  /** The exchanger name: token 5, or "" when the answer has no token 5. */
  function MxName(line: string): string {
    Field(Tokens(line), 5)
  }

  /** The first IPv4 address of the exchanger named by one MX answer ("" on failure). */
  function MxIpv4(answer: Oracle, line: string): string {
    OrEmpty(RecordValue(answer(Query(MxName(line), A, false))))
  }

  /** The entry built for one MX answer line. */
  function MxEntry(answer: Oracle, line: string): Mx {
    var parts := Tokens(line);
    var name := Field(parts, 5);
    var ipv4 := MxIpv4(answer, line);
    Mx(
      name,
      ipv4,
      OrEmpty(RecordValue(answer(Query(name, AAAA, false)))),
      OrEmpty(RecordValue(answer(Query(InAddrArpa(ipv4), PTR, false)))),
      Preference(parts),
      DnssecStatus(answer(Query(name, DNSKEY, true))).value)
  }

  /** The lookups issued for one MX answer line, in order: A, AAAA, the PTR of the
      IPv4 address, then the validated DNSKEY. */
  function MxQueries(answer: Oracle, line: string): seq<Query> {
    var name := MxName(line);
    [Query(name, A, false), Query(name, AAAA, false),
     Query(InAddrArpa(MxIpv4(answer, line)), PTR, false), Query(name, DNSKEY, true)]
  }

  /** What each field of an entry is: the name is token 5 or ""; each looked-up field
      is "" when its lookup fails or succeeds with no answers, and otherwise the last
      token of the first answer; the PTR lookup is at the reverse name of whatever
      the IPv4 field holds, "" included; dnssec is whether the DNSKEY lookup
      succeeded. */
  lemma MxEntrySpec(answer: Oracle, line: string)
    ensures var m := MxEntry(answer, line);
      var v4 := answer(Query(m.name, A, false));
      var v6 := answer(Query(m.name, AAAA, false));
      var ptr := answer(Query(InAddrArpa(m.ipv4), PTR, false));
      && (m.name == "" <==> |Tokens(line)| < 6)
      && (|Tokens(line)| >= 6 ==> m.name == Tokens(line)[5])
      && m.preference == Preference(Tokens(line))
      && (v4.None? || v4 == Some([]) ==> m.ipv4 == "")
      && (v4.Some? && |v4.value| > 0 ==> m.ipv4 == LastToken(v4.value[0]))
      && (v6.None? || v6 == Some([]) ==> m.ipv6 == "")
      && (v6.Some? && |v6.value| > 0 ==> m.ipv6 == LastToken(v6.value[0]))
      && (ptr.None? || ptr == Some([]) ==> m.ptr == "")
      && (ptr.Some? && |ptr.value| > 0 ==> m.ptr == LastToken(ptr.value[0]))
      && (m.dnssec <==> answer(Query(m.name, DNSKEY, true)).Some?)
      && MxQueries(answer, line)[2] == Query(InAddrArpa(m.ipv4), PTR, false)
  {
    var parts := Tokens(line);
    if |parts| >= 6 {
      assert IsWord(parts[5]);
    }
  }

  /** An exchanger without an IPv4 address still has its PTR looked up, at the bare
      suffix. */
  lemma PtrQueriedWithoutAddress(answer: Oracle, line: string)
    requires answer(Query(MxName(line), A, false)).None?
    ensures MxQueries(answer, line)[2] == Query(".in-addr.arpa", PTR, false)
    ensures MxEntry(answer, line).ptr == OrEmpty(RecordValue(answer(Query(".in-addr.arpa", PTR, false))))
  {
    InAddrArpaOfEmpty();
  }

  /** An answer rendered `<owner> <ttl> <class> MX <preference> <exchanger>` gives that
      exchanger and that preference. */
  lemma MxOfRendering(answer: Oracle, ws: seq<string>, v: Int8)
    requires AllWords(ws) && |ws| == 6 && ws[4] == ShowInt8(v)
    ensures MxEntry(answer, Join(ws, " ")).name == ws[5]
    ensures MxEntry(answer, Join(ws, " ")).preference == v
  {
    TokensOfJoin(ws);
    PreferenceOfShown(ws, v);
  }

  function MxEntries(answer: Oracle, lines: seq<string>): (ms: seq<Mx>)
    ensures |ms| == |lines|
  {
    if lines == [] then []
    else MxEntries(answer, lines[..|lines| - 1]) + [MxEntry(answer, lines[|lines| - 1])]
  }

  /** Entry `i` is the one built from MX answer line `i`. */
  lemma {:induction false} MxEntriesAt(answer: Oracle, lines: seq<string>, i: nat)
    requires i < |lines|
    ensures MxEntries(answer, lines)[i] == MxEntry(answer, lines[i])
  {
    if i < |lines| - 1 {
      MxEntriesAt(answer, lines[..|lines| - 1], i);
    }
  }

  /** The lookups issued for the MX answers, four per answer, in answer order. */
  function MxPlan(answer: Oracle, lines: seq<string>): (qs: seq<Query>)
    ensures |qs| == 4 * |lines|
  {
    if lines == [] then []
    else MxPlan(answer, lines[..|lines| - 1]) + MxQueries(answer, lines[|lines| - 1])
  }

  /** The mail check's result: an error exactly when the MX lookup failed, otherwise
      one entry per MX answer. */
  function EmailOf(answer: Oracle, domain: string): (r: Result<EmailReport>)
    ensures r.Err? <==> answer(Query(domain, MX, false)).None?
    ensures r.Err? ==> r.error == Resolve
    ensures r.Ok? ==> |r.value.mx| == |answer(Query(domain, MX, false)).value|
  {
    match answer(Query(domain, MX, false))
    case None => Err(Resolve)
    case Some(lines) => Ok(EmailReport(MxEntries(answer, lines)))
  }

  /** The entries of a successful mail check are those of the MX answers, in answer
      order. */
  lemma EmailOfInOrder(answer: Oracle, domain: string, i: nat)
    requires answer(Query(domain, MX, false)).Some?
    requires i < |answer(Query(domain, MX, false)).value|
    ensures EmailOf(answer, domain).value.mx[i] == MxEntry(answer, answer(Query(domain, MX, false)).value[i])
  {
    MxEntriesAt(answer, answer(Query(domain, MX, false)).value, i);
  }

  // ===========================================================================
  // The checks, against the resolver

  /** Looks up `domain` and returns the last token of the first answer. */
  method CheckRecord(domain: string, recordType: RecordType, resolver: Resolver) returns (r: Result<string>)
    modifies resolver
    ensures r == RecordValue(resolver.answer(Query(domain, recordType, false)))
    ensures resolver.log == old(resolver.log) + [Query(domain, recordType, false)]
  {
    var result := resolver.Lookup(Query(domain, recordType, false));
    match result {
      case Some(lines) =>
        if |lines| > 0 {
          var parts := Tokens(lines[0]);
          return Ok(if |parts| > 0 then parts[|parts| - 1] else "");
        }
      case None =>
        return Err(Resolve);
    }
    r := Ok("");
  }

  /** Looks up the DNSKEY records of `domain` through the validating resolver. */
  method CheckDnssec(domain: string, resolver: Resolver) returns (r: Result<bool>)
    modifies resolver
    ensures r == DnssecStatus(resolver.answer(Query(domain, DNSKEY, true)))
    ensures resolver.log == old(resolver.log) + [Query(domain, DNSKEY, true)]
  {
    var result := resolver.Lookup(Query(domain, DNSKEY, true));
    match result {
      case Some(_) =>
        return Ok(true);
      case None =>
        return Ok(false);
    }
  }

  /** Builds the entry for one MX answer line. */
  method CheckMx(line: string, resolver: Resolver) returns (m: Mx)
    modifies resolver
    ensures m == MxEntry(resolver.answer, line)
    ensures resolver.log == old(resolver.log) + MxQueries(resolver.answer, line)
  {
    var parts := Tokens(line);
    var preferenceString := if 4 < |parts| then parts[4] else "0";
    var parsed := ParseI8(preferenceString);
    var preference := if parsed.Some? then parsed.value else 0;
    var name := Field(parts, 5);
    var ipv4Result := CheckRecord(name, A, resolver);
    var ipv4 := OrEmpty(ipv4Result);
    var ipv6Result := CheckRecord(name, AAAA, resolver);
    var ipv6 := OrEmpty(ipv6Result);

    var inAddrArpa := Join(Reverse(Split(ipv4, '.')), ".");
    inAddrArpa := inAddrArpa + ".in-addr.arpa";

    var ptrResult := CheckRecord(inAddrArpa, PTR, resolver);
    var ptr := OrEmpty(ptrResult);
    var dnssecResult := CheckDnssec(name, resolver);
    var dnssec := if dnssecResult.Ok? then dnssecResult.value else false;

    m := Mx(name, ipv4, ipv6, ptr, preference, dnssec);
    assert name == MxName(line) && ipv4 == MxIpv4(resolver.answer, line);
    assert inAddrArpa == InAddrArpa(ipv4);
    FourMore(old(resolver.log), Query(name, A, false), Query(name, AAAA, false),
             Query(inAddrArpa, PTR, false), Query(name, DNSKEY, true));
  }

  lemma FourMore<T>(s: seq<T>, a: T, b: T, c: T, d: T)
    ensures s + [a] + [b] + [c] + [d] == s + [a, b, c, d]
  {
  }

  lemma MxStep(answer: Oracle, lines: seq<string>, i: nat)
    requires i < |lines|
    ensures MxPlan(answer, lines[..i + 1]) == MxPlan(answer, lines[..i]) + MxQueries(answer, lines[i])
    ensures MxEntries(answer, lines[..i + 1]) == MxEntries(answer, lines[..i]) + [MxEntry(answer, lines[i])]
  {
    assert lines[..i + 1][..i] == lines[..i];
  }

  method CheckEmail(domain: string, resolver: Resolver) returns (r: Result<EmailReport>)
    modifies resolver
    ensures r == EmailOf(resolver.answer, domain)
    ensures var mxAnswer := resolver.answer(Query(domain, MX, false));
      resolver.log == old(resolver.log) + [Query(domain, MX, false)]
        + (if mxAnswer.Some? then MxPlan(resolver.answer, mxAnswer.value) else [])
  {
    var result := resolver.Lookup(Query(domain, MX, false));
    var mxRecords: seq<Mx> := [];
    match result {
      case Some(lines) =>
        ghost var start := resolver.log;
        for i := 0 to |lines|
          invariant resolver.log == start + MxPlan(resolver.answer, lines[..i])
          invariant mxRecords == MxEntries(resolver.answer, lines[..i])
        {
          MxStep(resolver.answer, lines, i);
          AppendAssoc(start, MxPlan(resolver.answer, lines[..i]), MxQueries(resolver.answer, lines[i]));
          var mxRecord := CheckMx(lines[i], resolver);
          mxRecords := mxRecords + [mxRecord];
        }
        assert lines[..|lines|] == lines;
      case None =>
        return Err(Resolve);
    }
    r := Ok(EmailReport(mxRecords));
  }

}
