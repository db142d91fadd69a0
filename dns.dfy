/** The record aggregator, the CAA check and the nameserver check of one domain.
    Every answer record reaches these checks as its rendered one-line text form; the
    fields are pulled out of that line by token position. */
module Dns {
  import opened Text
  import opened Resolving

  // ===========================================================================
  // Record aggregator

  /** One flattened answer record. */
  datatype DnsRecord = DnsRecord(name: string, ttl: string, recordType: string, data: string)

  /** The aggregator's result list, which every lookup appends to. */
  class DnsRecords {
    var dnsRecords: seq<DnsRecord>

    constructor ()
      ensures dnsRecords == []
    {
      dnsRecords := [];
    }
  }

  /** The record for one rendered answer line: the name is token 0, the TTL token 1,
      and the data tokens 4 onward joined by single spaces (tokens 2 and 3, the class
      and the type, are dropped). */
  function ToDnsRecord(line: string, t: RecordType): DnsRecord {
    var parts := Tokens(line);
    DnsRecord(Field(parts, 0), Field(parts, 1), t.Name(), DataField(parts))
  }

  /** A missing field is "": the name exactly when the line has no token, the TTL
      when it has fewer than two, the data when it has fewer than five; otherwise the
      data tokenises back to tokens 4 onward of the line. */
  lemma DnsRecordFields(line: string, t: RecordType)
    ensures var parts := Tokens(line); var r := ToDnsRecord(line, t);
      && r.recordType == t.Name()
      && (r.name == "" <==> |parts| == 0)
      && (|parts| > 0 ==> r.name == parts[0])
      && (r.ttl == "" <==> |parts| < 2)
      && (|parts| > 1 ==> r.ttl == parts[1])
      && (r.data == "" <==> |parts| < 5)
      && (|parts| >= 5 ==> Tokens(r.data) == parts[4..])
      && (|parts| >= 4 ==> r.data == Join(parts[4..], " "))
  {
    DataFieldOf(Tokens(line));
  }

  /** A rendering `<name> <ttl> <class> <type> <data...>` laid out as single-spaced
      words gives back its name, its TTL and its data words. */
  lemma DnsRecordOfRendering(ws: seq<string>, t: RecordType)
    requires AllWords(ws) && |ws| >= 5
    ensures ToDnsRecord(Join(ws, " "), t) == DnsRecord(ws[0], ws[1], t.Name(), Join(ws[4..], " "))
  {
    TokensOfJoin(ws);
  }

  /** One record per answer line, in answer order. */
  function Records(lines: seq<string>, t: RecordType): (rs: seq<DnsRecord>)
    ensures |rs| == |lines|
  {
    if lines == [] then []
    else Records(lines[..|lines| - 1], t) + [ToDnsRecord(lines[|lines| - 1], t)]
  }

  /** Record `i` is the one extracted from answer line `i`. */
  lemma {:induction false} RecordsAt(lines: seq<string>, t: RecordType, i: nat)
    requires i < |lines|
    ensures Records(lines, t)[i] == ToDnsRecord(lines[i], t)
  {
    if i < |lines| - 1 {
      RecordsAt(lines[..|lines| - 1], t, i);
    }
  }

  /** What one lookup adds to the list: nothing when it failed. */
  function Contribution(answer: Option<seq<string>>, t: RecordType): seq<DnsRecord> {
    match answer
    case None => []
    case Some(lines) => Records(lines, t)
  }

  /** What each lookup adds to the list, given the upstream's answers. */
  function Found(answer: Oracle): Query -> seq<DnsRecord> {
    q => Contribution(answer(q), q.recordType)
  }

  /** The list produced by running the lookups of `plan` in order, each adding
      `found` of itself. */
  function Collect<T>(found: Query -> seq<T>, plan: seq<Query>): seq<T> {
    if plan == [] then []
    else Collect(found, plan[..|plan| - 1]) + found(plan[|plan| - 1])
  }

  const BaseRecordTypes: seq<RecordType> :=
    [A, AAAA, CNAME, MX, NS, PTR, SOA, TXT, CAA, DNSKEY, DS, SSHFP]

  const SrvSubdomains: seq<string> :=
    ["_sip._tls", "_sipfederationtls._tcp", "_xmpp-client._tcp", "_xmpp-server._tcp"]

  const TxtSubdomains: seq<string> :=
    ["_dmarc", "_domainkey", "_mta-sts", "_smtp._tls"]

  /** The lookups of `domain` itself for the types in `types`, skipping SRV and TXT. */
  function ApexQueries(domain: string, types: seq<RecordType>): seq<Query> {
    if types == [] then []
    else ApexQueries(domain, types[..|types| - 1]) + ApexQuery(domain, types[|types| - 1])
  }

  /** The apex lookup for one type: none for SRV and TXT. */
  function ApexQuery(domain: string, t: RecordType): seq<Query> {
    if t == SRV || t == TXT then [] else [Query(domain, t, false)]
  }

  /** The name `<label>.<domain>`. */
  function Subdomain(prefix: string, domain: string): string {
    prefix + "." + domain
  }

  /** One lookup of type `t` per label, at `<label>.<domain>`. */
  function SubdomainQueries(labels: seq<string>, domain: string, t: RecordType): seq<Query> {
    if labels == [] then []
    else
      SubdomainQueries(labels[..|labels| - 1], domain, t)
        + [Query(Subdomain(labels[|labels| - 1], domain), t, false)]
  }

  function WwwQueries(domain: string): seq<Query> {
    [Query("www." + domain, A, false), Query("www." + domain, AAAA, false)]
  }

  /** The lookups the aggregator issues, in order. */
  function QueryPlan(domain: string): seq<Query> {
    ApexQueries(domain, BaseRecordTypes) + WwwQueries(domain)
      + SubdomainQueries(SrvSubdomains, domain, SRV)
      + SubdomainQueries(TxtSubdomains, domain, TXT)
  }

  /** Looks up `domain` for `recordType` and appends one record per answer line;
      a failed lookup appends nothing. */
  method CheckAndAddRecord(domain: string, recordType: RecordType, records: DnsRecords, resolver: Resolver)
    modifies records, resolver
    ensures resolver.log == old(resolver.log) + [Query(domain, recordType, false)]
    ensures records.dnsRecords == old(records.dnsRecords) + Found(resolver.answer)(Query(domain, recordType, false))
  {
    var result := resolver.Lookup(Query(domain, recordType, false));
    match result {
      case Some(lines) =>
        var i := 0;
        while i < |lines|
          invariant 0 <= i <= |lines|
          invariant resolver.log == old(resolver.log) + [Query(domain, recordType, false)]
          invariant records.dnsRecords == old(records.dnsRecords) + Records(lines[..i], recordType)
        {
          assert lines[..i + 1][..i] == lines[..i];
          records.dnsRecords := records.dnsRecords + [ToDnsRecord(lines[i], recordType)];
          i := i + 1;
        }
        assert lines[..i] == lines;
      case None =>
    }
  }

  /** One more lookup after `plan`, seen from a list that already held `base`. */
  lemma CollectExtend<T>(found: Query -> seq<T>, base: seq<T>, plan: seq<Query>, q: Query)
    ensures base + Collect(found, plan + [q]) == (base + Collect(found, plan)) + found(q)
  {
    CollectSnoc(found, plan, q);
    AppendAssoc(base, Collect(found, plan), found(q));
  }

  lemma SubdomainQueriesSnoc(prefixes: seq<string>, j: nat, domain: string, t: RecordType)
    requires j < |prefixes|
    ensures SubdomainQueries(prefixes[..j + 1], domain, t)
         == SubdomainQueries(prefixes[..j], domain, t) + [Query(Subdomain(prefixes[j], domain), t, false)]
  {
    assert prefixes[..j + 1][..j] == prefixes[..j];
  }

  lemma ApexQueriesSnoc(domain: string, types: seq<RecordType>, i: nat)
    requires i < |types|
    ensures ApexQueries(domain, types[..i + 1]) == ApexQueries(domain, types[..i]) + ApexQuery(domain, types[i])
  {
    assert types[..i + 1][..i] == types[..i];
  }

  /** Looks up `<prefix>.<domain>` for each prefix in turn. */
  method CheckAndAddSubdomains(prefixes: seq<string>, domain: string, recordType: RecordType,
                               records: DnsRecords, resolver: Resolver)
    modifies records, resolver
    ensures resolver.log == old(resolver.log) + SubdomainQueries(prefixes, domain, recordType)
    ensures records.dnsRecords
         == old(records.dnsRecords) + Collect(Found(resolver.answer), SubdomainQueries(prefixes, domain, recordType))
  {
    ghost var found := Found(resolver.answer);
    for j := 0 to |prefixes|
      invariant resolver.log == old(resolver.log) + SubdomainQueries(prefixes[..j], domain, recordType)
      invariant records.dnsRecords == old(records.dnsRecords) + Collect(found, SubdomainQueries(prefixes[..j], domain, recordType))
    {
      var fqdn := Subdomain(prefixes[j], domain);
      ghost var done := SubdomainQueries(prefixes[..j], domain, recordType);
      SubdomainQueriesSnoc(prefixes, j, domain, recordType);
      CheckAndAddRecord(fqdn, recordType, records, resolver);
      CollectExtend(found, old(records.dnsRecords), done, Query(fqdn, recordType, false));
      AppendAssoc(old(resolver.log), done, [Query(fqdn, recordType, false)]);
    }
    assert prefixes[..|prefixes|] == prefixes;
  }

  /** Looks up `domain` itself for each of `types` in turn, skipping SRV and TXT. */
  method CheckAndAddApex(domain: string, types: seq<RecordType>, records: DnsRecords, resolver: Resolver)
    modifies records, resolver
    ensures resolver.log == old(resolver.log) + ApexQueries(domain, types)
    ensures records.dnsRecords == old(records.dnsRecords) + Collect(Found(resolver.answer), ApexQueries(domain, types))
  {
    ghost var found := Found(resolver.answer);
    for i := 0 to |types|
      invariant resolver.log == old(resolver.log) + ApexQueries(domain, types[..i])
      invariant records.dnsRecords == old(records.dnsRecords) + Collect(found, ApexQueries(domain, types[..i]))
    {
      var recordType := types[i];
      ghost var done := ApexQueries(domain, types[..i]);
      ApexQueriesSnoc(domain, types, i);
      if recordType == SRV || recordType == TXT {
        assert done + [] == done;
        continue;
      }
      var q := Query(domain, recordType, false);
      CheckAndAddRecord(domain, recordType, records, resolver);
      CollectExtend(found, old(records.dnsRecords), done, q);
      AppendAssoc(old(resolver.log), done, [q]);
    }
    assert types[..|types|] == types;
  }

  /** Runs the aggregator's fixed list of lookups for `domain`. */
  method CollectDnsRecords(domain: string, resolver: Resolver) returns (records: DnsRecords)
    modifies resolver
    ensures fresh(records)
    ensures resolver.log == old(resolver.log) + QueryPlan(domain)
    ensures records.dnsRecords == Collect(Found(resolver.answer), QueryPlan(domain))
  {
    records := new DnsRecords();
    ghost var found := Found(resolver.answer);
    ghost var apex := ApexQueries(domain, BaseRecordTypes);
    CheckAndAddApex(domain, BaseRecordTypes, records, resolver);
    assert [] + Collect(found, apex) == Collect(found, apex);

    var wwwDomain := "www." + domain;
    ghost var qa, qaaaa := Query(wwwDomain, A, false), Query(wwwDomain, AAAA, false);
    CheckAndAddRecord(wwwDomain, A, records, resolver);
    CollectSnoc(found, apex, qa);
    AppendAssoc(old(resolver.log), apex, [qa]);
    CheckAndAddRecord(wwwDomain, AAAA, records, resolver);
    CollectSnoc(found, apex + [qa], qaaaa);
    AppendAssoc(old(resolver.log), apex + [qa], [qaaaa]);
    ghost var head := apex + WwwQueries(domain);
    assert apex + [qa] + [qaaaa] == head;

    ghost var srv := SubdomainQueries(SrvSubdomains, domain, SRV);
    CheckAndAddSubdomains(SrvSubdomains, domain, SRV, records, resolver);
    CollectAppend(found, head, srv);
    AppendAssoc(old(resolver.log), head, srv);

    ghost var txt := SubdomainQueries(TxtSubdomains, domain, TXT);
    CheckAndAddSubdomains(TxtSubdomains, domain, TXT, records, resolver);
    CollectAppend(found, head + srv, txt);
    AppendAssoc(old(resolver.log), head + srv, txt);
  }

  /** Apex lookups for two lists of types in turn are those of each list in turn. */
  lemma {:induction false} ApexQueriesAppend(domain: string, s: seq<RecordType>, t: seq<RecordType>)
    ensures ApexQueries(domain, s + t) == ApexQueries(domain, s) + ApexQueries(domain, t)
    decreases |t|
  {
    if t == [] {
      assert s + t == s;
    } else {
      var n := |t| - 1;
      assert (s + t)[..|s + t| - 1] == s + t[..n];
      ApexQueriesAppend(domain, s, t[..n]);
    }
  }

  lemma ApexOfFour(domain: string, ts: seq<RecordType>)
    requires |ts| == 4
    ensures ApexQueries(domain, ts)
         == ApexQuery(domain, ts[0]) + ApexQuery(domain, ts[1]) + ApexQuery(domain, ts[2]) + ApexQuery(domain, ts[3])
  {
    var q0, q1, q2, q3 := ApexQuery(domain, ts[0]), ApexQuery(domain, ts[1]), ApexQuery(domain, ts[2]), ApexQuery(domain, ts[3]);
    assert ts[..1][..0] == [];
    assert ApexQueries(domain, ts[..1]) == [] + q0 == q0;
    assert ts[..2][..1] == ts[..1];
    assert ApexQueries(domain, ts[..2]) == q0 + q1;
    assert ts[..3][..2] == ts[..2];
    assert ApexQueries(domain, ts[..3]) == q0 + q1 + q2;
    assert ts[..4][..3] == ts[..3];
    assert ts[..4] == ts;
  }

  lemma ApexQueriesOfBase(domain: string)
    ensures ApexQueries(domain, BaseRecordTypes)
         == ApexQueries(domain, [A, AAAA, CNAME, MX]) + ApexQueries(domain, [NS, PTR, SOA, TXT])
          + ApexQueries(domain, [CAA, DNSKEY, DS, SSHFP])
  {
    var first, middle, last := [A, AAAA, CNAME, MX], [NS, PTR, SOA, TXT], [CAA, DNSKEY, DS, SSHFP];
    assert BaseRecordTypes == first + middle + last;
    ApexQueriesAppend(domain, first + middle, last);
    ApexQueriesAppend(domain, first, middle);
  }

  lemma ApexFirstChunk(domain: string)
    ensures ApexQueries(domain, [A, AAAA, CNAME, MX])
         == [Query(domain, A, false), Query(domain, AAAA, false), Query(domain, CNAME, false), Query(domain, MX, false)]
  {
    ApexOfFour(domain, [A, AAAA, CNAME, MX]);
  }

  lemma ApexMiddleChunk(domain: string)
    ensures ApexQueries(domain, [NS, PTR, SOA, TXT])
         == [Query(domain, NS, false), Query(domain, PTR, false), Query(domain, SOA, false)]
  {
    ApexOfFour(domain, [NS, PTR, SOA, TXT]);
  }

  lemma ApexLastChunk(domain: string)
    ensures ApexQueries(domain, [CAA, DNSKEY, DS, SSHFP])
         == [Query(domain, CAA, false), Query(domain, DNSKEY, false), Query(domain, DS, false), Query(domain, SSHFP, false)]
  {
    ApexOfFour(domain, [CAA, DNSKEY, DS, SSHFP]);
  }

  /** The lookups of `domain` itself: every base type except SRV and TXT, in order. */
  lemma ApexPlanIs(domain: string)
    ensures ApexQueries(domain, BaseRecordTypes) == [
      Query(domain, A, false), Query(domain, AAAA, false), Query(domain, CNAME, false),
      Query(domain, MX, false), Query(domain, NS, false), Query(domain, PTR, false),
      Query(domain, SOA, false), Query(domain, CAA, false), Query(domain, DNSKEY, false),
      Query(domain, DS, false), Query(domain, SSHFP, false)]
  {
    ApexQueriesOfBase(domain);
    ApexFirstChunk(domain);
    ApexMiddleChunk(domain);
    ApexLastChunk(domain);
  }

  lemma SubdomainPlanOfFour(prefixes: seq<string>, domain: string, t: RecordType)
    requires |prefixes| == 4
    ensures SubdomainQueries(prefixes, domain, t) == [
      Query(Subdomain(prefixes[0], domain), t, false), Query(Subdomain(prefixes[1], domain), t, false),
      Query(Subdomain(prefixes[2], domain), t, false), Query(Subdomain(prefixes[3], domain), t, false)]
  {
    var p := prefixes;
    var q := seq(4, i requires 0 <= i < 4 => Query(Subdomain(p[i], domain), t, false));
    assert p[..1][..0] == [];
    assert SubdomainQueries(p[..1], domain, t) == q[..1];
    assert p[..2][..1] == p[..1];
    assert SubdomainQueries(p[..2], domain, t) == q[..2];
    assert p[..3][..2] == p[..2];
    assert SubdomainQueries(p[..3], domain, t) == q[..3];
    assert p[..4][..3] == p[..3];
    assert SubdomainQueries(p[..4], domain, t) == q[..4];
    assert p[..4] == p && q[..4] == q;
  }

  /** The aggregator's lookups, written out: the apex for eleven base types (TXT is
      listed but skipped, SRV is not listed), `www.` for A then AAAA, four SRV names,
      four TXT names. */
  lemma QueryPlanIs(domain: string)
    ensures QueryPlan(domain) == [
      Query(domain, A, false), Query(domain, AAAA, false), Query(domain, CNAME, false),
      Query(domain, MX, false), Query(domain, NS, false), Query(domain, PTR, false),
      Query(domain, SOA, false), Query(domain, CAA, false), Query(domain, DNSKEY, false),
      Query(domain, DS, false), Query(domain, SSHFP, false),
      Query("www." + domain, A, false), Query("www." + domain, AAAA, false),
      Query(Subdomain("_sip._tls", domain), SRV, false),
      Query(Subdomain("_sipfederationtls._tcp", domain), SRV, false),
      Query(Subdomain("_xmpp-client._tcp", domain), SRV, false),
      Query(Subdomain("_xmpp-server._tcp", domain), SRV, false),
      Query(Subdomain("_dmarc", domain), TXT, false),
      Query(Subdomain("_domainkey", domain), TXT, false),
      Query(Subdomain("_mta-sts", domain), TXT, false),
      Query(Subdomain("_smtp._tls", domain), TXT, false)]
  {
    ApexPlanIs(domain);
    SubdomainPlanOfFour(SrvSubdomains, domain, SRV);
    SubdomainPlanOfFour(TxtSubdomains, domain, TXT);
  }

  /** The aggregator issues 21 lookups and never looks up the apex TXT record. */
  lemma QueryPlanSize(domain: string)
    ensures |QueryPlan(domain)| == 21
    ensures Query(domain, TXT, false) !in QueryPlan(domain)
  {
    QueryPlanIs(domain);
  }

  lemma CollectSnoc<T>(found: Query -> seq<T>, plan: seq<Query>, q: Query)
    ensures Collect(found, plan + [q]) == Collect(found, plan) + found(q)
  {
    assert (plan + [q])[..|plan|] == plan;
  }

  /** Running two plans one after the other gives the first list followed by the
      second: later lookups only append and never change earlier entries. */
  lemma {:induction false} CollectAppend<T>(found: Query -> seq<T>, p: seq<Query>, q: seq<Query>)
    ensures Collect(found, p + q) == Collect(found, p) + Collect(found, q)
    decreases |q|
  {
    if q == [] {
      assert p + q == p;
    } else {
      var n := |q| - 1;
      var last := q[n];
      assert q == q[..n] + [last];
      assert p + q == (p + q[..n]) + [last];
      CollectSnoc(found, p + q[..n], last);
      CollectSnoc(found, q[..n], last);
      CollectAppend(found, p, q[..n]);
    }
  }

  /** A lookup that fails contributes nothing; when every lookup of the plan fails
      the list stays empty. */
  lemma {:induction false} CollectAllFailed(answer: Oracle, plan: seq<Query>)
    requires forall i :: 0 <= i < |plan| ==> answer(plan[i]).None?
    ensures Collect(Found(answer), plan) == []
  {
    if plan != [] {
      CollectAllFailed(answer, plan[..|plan| - 1]);
    }
  }

  /** A successful lookup appended to a plan adds exactly one record per answer line,
      in answer order, after the records already there. */
  lemma CollectStep(answer: Oracle, plan: seq<Query>, q: Query)
    requires answer(q).Some?
    ensures var before := Collect(Found(answer), plan);
      var after := Collect(Found(answer), plan + [q]);
      var lines := answer(q).value;
      && |after| == |before| + |lines|
      && after[..|before|] == before
      && forall i :: 0 <= i < |lines| ==> after[|before| + i] == ToDnsRecord(lines[i], q.recordType)
  {
    var before, lines := Collect(Found(answer), plan), answer(q).value;
    var recs := Records(lines, q.recordType);
    assert Collect(Found(answer), plan + [q]) == before + recs by {
      CollectSnoc(Found(answer), plan, q);
    }
    forall i | 0 <= i < |lines|
      ensures (before + recs)[|before| + i] == ToDnsRecord(lines[i], q.recordType)
    {
      RecordsAt(lines, q.recordType, i);
    }
  }

  // ===========================================================================
  // CAA check

  /** One CAA answer: owner name, tag (issue, issuewild, iodef, ...) and value. */
  datatype CaaRecord = CaaRecord(name: string, caaType: string, data: string)

  datatype CaaCheck = CaaCheck(recordExists: bool, reportingEnabled: bool, records: seq<CaaRecord>)

  /** The tag is token 5; when there is no token 5 it is token 4 with every '/' and
      '"' removed. */
  function CaaTag(parts: seq<string>): string {
    var tag := Field(parts, 5);
    if tag == "" then Without(Without(Field(parts, 4), '/'), '"') else tag
  }

  /** The value is token 6, or token 5 when there is no token 6. */
  function CaaValue(parts: seq<string>): string {
    var value := Field(parts, 6);
    if value == "" then Field(parts, 5) else value
  }

  function ToCaaRecord(line: string): CaaRecord {
    var parts := Tokens(line);
    CaaRecord(Field(parts, 0), CaaTag(parts), CaaValue(parts))
  }

  /** Where each CAA field comes from, by number of tokens on the line: the tag is
      token 5 when there is one, otherwise token 4 cleaned of '/' and '"' (so "" when
      there is no token 4 either); the value is token 6, else token 5, else "". */
  lemma CaaRecordFields(line: string)
    ensures var parts := Tokens(line); var r := ToCaaRecord(line);
      && (r.name == "" <==> |parts| == 0)
      && (|parts| > 0 ==> r.name == parts[0])
      && (|parts| >= 6 ==> r.caaType == parts[5])
      && (|parts| < 6 ==> '/' !in r.caaType && '"' !in r.caaType)
      && (|parts| == 5 ==> r.caaType == Without(Without(parts[4], '/'), '"'))
      && (|parts| == 5 && '/' !in parts[4] && '"' !in parts[4] ==> r.caaType == parts[4])
      && (|parts| < 5 ==> r.caaType == "")
      && (|parts| >= 7 ==> r.data == parts[6])
      && (|parts| == 6 ==> r.data == parts[5])
      && (r.data == "" <==> |parts| < 6)
  {
    var parts := Tokens(line);
    if |parts| >= 6 {
      assert IsWord(parts[5]);
    }
    if |parts| >= 7 {
      assert IsWord(parts[6]);
    }
  }

  /** A quoted tag standing alone in token 4, such as `"iodef"`, loses its quotes
      and nothing else. */
  lemma CaaFallbackTagUnquoted(t: string)
    requires '/' !in t && '"' !in t
    ensures Without(Without("\"" + t + "\"", '/'), '"') == t
  {
    WithoutWrapped('"', t, '/');
    WithoutChar('"', '/');
    assert Without("\"" + t + "\"", '/') == "\"" + t + "\"";
    WithoutWrapped('"', t, '"');
    WithoutChar('"', '"');
  }

  lemma WithoutWrapped(x: char, t: string, c: char)
    ensures Without([x] + t + [x], c) == Without([x], c) + Without(t, c) + Without([x], c)
  {
    WithoutAppend([x] + t, [x], c);
    WithoutAppend([x], t, c);
  }

  function CaaRecords(lines: seq<string>): (rs: seq<CaaRecord>)
    ensures |rs| == |lines|
  {
    if lines == [] then [] else CaaRecords(lines[..|lines| - 1]) + [ToCaaRecord(lines[|lines| - 1])]
  }

  lemma {:induction false} CaaRecordsAt(lines: seq<string>, i: nat)
    requires i < |lines|
    ensures CaaRecords(lines)[i] == ToCaaRecord(lines[i])
  {
    if i < |lines| - 1 {
      CaaRecordsAt(lines[..|lines| - 1], i);
    }
  }

  predicate HasIodef(rs: seq<CaaRecord>) {
    exists i :: 0 <= i < |rs| && rs[i].caaType == "iodef"
  }

  lemma HasIodefSnoc(rs: seq<CaaRecord>, r: CaaRecord)
    ensures HasIodef(rs + [r]) <==> HasIodef(rs) || r.caaType == "iodef"
  {
    if HasIodef(rs) {
      var k :| 0 <= k < |rs| && rs[k].caaType == "iodef";
      assert (rs + [r])[k] == rs[k];
    }
    if HasIodef(rs + [r]) && r.caaType != "iodef" {
      var k :| 0 <= k < |rs + [r]| && (rs + [r])[k].caaType == "iodef";
      assert k < |rs| && rs[k] == (rs + [r])[k];
    }
    if r.caaType == "iodef" {
      assert (rs + [r])[|rs|] == r;
    }
  }

  /** The CAA check's result for the answer to its one lookup. */
  function CaaReport(answer: Option<seq<string>>): Result<CaaCheck> {
    match answer
    case None => Err(Msg("No CAA records found"))
    case Some(lines) =>
      var rs := CaaRecords(lines);
      Ok(CaaCheck(true, HasIodef(rs), rs))
  }

  /** The CAA check fails exactly when its lookup fails; otherwise the record exists
      (even with no answers), there is one entry per answer in answer order, and
      reporting is enabled exactly when some answer's tag is "iodef". */
  lemma CaaReportSpec(answer: Option<seq<string>>)
    ensures var r := CaaReport(answer);
      && (r.Err? <==> answer.None?)
      && (r.Err? ==> r.error == Msg("No CAA records found"))
      && (r.Ok? ==> r.value.recordExists && |r.value.records| == |answer.value|)
      && (r.Ok? ==> forall i :: 0 <= i < |answer.value| ==> r.value.records[i] == ToCaaRecord(answer.value[i]))
      && (r.Ok? ==> (r.value.reportingEnabled <==>
            exists i :: 0 <= i < |answer.value| && ToCaaRecord(answer.value[i]).caaType == "iodef"))
  {
    if answer.Some? {
      var lines := answer.value;
      var rs := CaaRecords(lines);
      forall i | 0 <= i < |lines|
        ensures rs[i] == ToCaaRecord(lines[i])
      {
        CaaRecordsAt(lines, i);
      }
    }
  }

  method CheckCaa(domain: string, resolver: Resolver) returns (r: Result<CaaCheck>)
    modifies resolver
    ensures resolver.log == old(resolver.log) + [Query(domain, CAA, false)]
    ensures r == CaaReport(resolver.answer(Query(domain, CAA, false)))
  {
    var records := CaaCheck(false, false, []);
    var result := resolver.Lookup(Query(domain, CAA, false));
    if result.Some? {
      records := records.(recordExists := true);
    }
    match result {
      case Some(lines) =>
        for i := 0 to |lines|
          invariant resolver.log == old(resolver.log) + [Query(domain, CAA, false)]
          invariant records.recordExists
          invariant records.records == CaaRecords(lines[..i])
          invariant records.reportingEnabled == HasIodef(records.records)
        {
          var parts := Tokens(lines[i]);
          var name := Field(parts, 0);
          var tag := Field(parts, 5);
          if tag == "" {
            tag := Without(Without(Field(parts, 4), '/'), '"');
          }
          if tag == "iodef" {
            records := records.(reportingEnabled := true);
          }
          var data := Field(parts, 6);
          if data == "" {
            data := Field(parts, 5);
          }
          assert lines[..i + 1][..i] == lines[..i];
          ghost var prev := records.records;
          records := records.(records := records.records + [CaaRecord(name, tag, data)]);
          HasIodefSnoc(prev, CaaRecord(name, tag, data));
        }
        assert lines[..|lines|] == lines;
        r := Ok(records);
      case None =>
        r := Err(Msg("No CAA records found"));
    }
  }

  /** A full rendering `<name> <ttl> <class> CAA <flags> <tag> <value>` gives its tag
      and its value as written, quotes included. */
  lemma CaaOfFullRendering(ws: seq<string>)
    requires AllWords(ws) && |ws| == 7
    ensures ToCaaRecord(Join(ws, " ")) == CaaRecord(ws[0], ws[5], ws[6])
  {
    TokensOfJoin(ws);
    assert IsWord(ws[5]) && IsWord(ws[6]);
  }

  /** One iodef answer in full rendering enables reporting; a successful lookup with no
      answers still reports that the record exists. */
  lemma CaaIodefEnablesReporting(ws: seq<string>)
    requires AllWords(ws) && |ws| == 7 && ws[5] == "iodef"
    ensures CaaReport(Some([Join(ws, " ")])).value.reportingEnabled
    ensures CaaReport(Some([])) == Ok(CaaCheck(true, false, []))
  {
    CaaOfFullRendering(ws);
    var rs := CaaRecords([Join(ws, " ")]);
    assert rs[0].caaType == "iodef";
  }

  // ===========================================================================
  // Nameserver check

  /** The summary for one nameserver. */
  datatype NsaRecords = NsaRecords(
    nsdomain: string,
    operational: bool,
    ipv4available: bool,
    ipv6available: bool,
    ipv4Addresses: seq<string>,
    ipv6Addresses: seq<string>)

  datatype NsRecord = NsRecord(name: string, records: seq<NsaRecords>)

  /** Token 4 of each address answer, in answer order. */
  function AddressList(lines: seq<string>): (addrs: seq<string>)
    ensures |addrs| == |lines|
  {
    if lines == [] then []
    else AddressList(lines[..|lines| - 1]) + [Field(Tokens(lines[|lines| - 1]), 4)]
  }

  lemma {:induction false} AddressListAt(lines: seq<string>, i: nat)
    requires i < |lines|
    ensures AddressList(lines)[i] == Field(Tokens(lines[i]), 4)
  {
    if i < |lines| - 1 {
      AddressListAt(lines[..|lines| - 1], i);
    }
  }

  /** The addresses of one lookup: nothing when it failed. */
  function Addresses(answer: Option<seq<string>>): seq<string> {
    match answer
    case None => []
    case Some(lines) => AddressList(lines)
  }

  /** The name the A and AAAA lookups of one nameserver go to: tokens 4 onward of its
      NS answer, joined (while `nsdomain` is token 4 alone). */
  function NsTarget(line: string): string {
    DataField(Tokens(line))
  }

  /** The summary of the nameserver named by one NS answer line. */
  function NsSummary(answer: Oracle, line: string): NsaRecords {
    var target := NsTarget(line);
    var v4 := answer(Query(target, A, false));
    var v6 := answer(Query(target, AAAA, false));
    NsaRecords(
      Field(Tokens(line), 4),
      v4.Some? || v6.Some?,
      v4.Some? && |v4.value| > 0,
      v6.Some? && |v6.value| > 0,
      Addresses(v4),
      Addresses(v6))
  }

  /** A nameserver summary is named by token 4 of its NS answer; the nameserver is
      operational exactly when its A or its AAAA lookup succeeded; a family is
      available exactly when its lookup gave at least one answer, and its address
      list holds token 4 of each answer, one per answer, in order. */
  lemma NsSummarySpec(answer: Oracle, line: string)
    ensures var v4 := answer(Query(NsTarget(line), A, false));
      var v6 := answer(Query(NsTarget(line), AAAA, false));
      var s := NsSummary(answer, line);
      && s.nsdomain == Field(Tokens(line), 4)
      && (s.operational <==> v4.Some? || v6.Some?)
      && (s.ipv4available <==> v4.Some? && |v4.value| > 0)
      && (s.ipv6available <==> v6.Some? && |v6.value| > 0)
      && |s.ipv4Addresses| == (if v4.Some? then |v4.value| else 0)
      && |s.ipv6Addresses| == (if v6.Some? then |v6.value| else 0)
      && (s.ipv4available <==> |s.ipv4Addresses| > 0)
      && (s.ipv6available <==> |s.ipv6Addresses| > 0)
      && (s.ipv4available || s.ipv6available ==> s.operational)
      && (v4.Some? ==> forall i :: 0 <= i < |v4.value| ==> s.ipv4Addresses[i] == Field(Tokens(v4.value[i]), 4))
      && (v6.Some? ==> forall i :: 0 <= i < |v6.value| ==> s.ipv6Addresses[i] == Field(Tokens(v6.value[i]), 4))
  {
    var v4 := answer(Query(NsTarget(line), A, false));
    var v6 := answer(Query(NsTarget(line), AAAA, false));
    if v4.Some? {
      forall i | 0 <= i < |v4.value|
        ensures AddressList(v4.value)[i] == Field(Tokens(v4.value[i]), 4)
      {
        AddressListAt(v4.value, i);
      }
    }
    if v6.Some? {
      forall i | 0 <= i < |v6.value|
        ensures AddressList(v6.value)[i] == Field(Tokens(v6.value[i]), 4)
      {
        AddressListAt(v6.value, i);
      }
    }
  }

  function NsSummaries(answer: Oracle, lines: seq<string>): (ss: seq<NsaRecords>)
    ensures |ss| == |lines|
  {
    if lines == [] then []
    else NsSummaries(answer, lines[..|lines| - 1]) + [NsSummary(answer, lines[|lines| - 1])]
  }

  /** Summary `i` is the one for NS answer line `i`. */
  lemma {:induction false} NsSummariesAt(answer: Oracle, lines: seq<string>, i: nat)
    requires i < |lines|
    ensures NsSummaries(answer, lines)[i] == NsSummary(answer, lines[i])
  {
    if i < |lines| - 1 {
      NsSummariesAt(answer, lines[..|lines| - 1], i);
    }
  }

  /** The lookups issued per NS answer: A then AAAA of its target name. */
  function NsQueries(lines: seq<string>): (qs: seq<Query>)
    ensures |qs| == 2 * |lines|
  {
    if lines == [] then []
    else
      var target := NsTarget(lines[|lines| - 1]);
      NsQueries(lines[..|lines| - 1]) + [Query(target, A, false), Query(target, AAAA, false)]
  }

  /** The nameserver check's result: an error exactly when the NS lookup failed,
      otherwise one summary per NS answer, in answer order. */
  function NsReport(answer: Oracle, domain: string): (r: Result<NsRecord>)
    ensures r.Err? <==> answer(Query(domain, NS, false)).None?
    ensures r.Err? ==> r.error == Msg("No NS records found")
    ensures r.Ok? ==> (r.value.name == domain
      && |r.value.records| == |answer(Query(domain, NS, false)).value|)
  {
    match answer(Query(domain, NS, false))
    case None => Err(Msg("No NS records found"))
    case Some(lines) => Ok(NsRecord(domain, NsSummaries(answer, lines)))
  }

  /** The summaries of a successful nameserver check are those of the NS answers, in
      answer order. */
  lemma NsReportInOrder(answer: Oracle, domain: string, i: nat)
    requires answer(Query(domain, NS, false)).Some?
    requires i < |answer(Query(domain, NS, false)).value|
    ensures NsReport(answer, domain).value.records[i] == NsSummary(answer, answer(Query(domain, NS, false)).value[i])
  {
    NsSummariesAt(answer, answer(Query(domain, NS, false)).value, i);
  }

  /** The address list and availability flag of one address lookup. */
  method GatherAddresses(result: Option<seq<string>>) returns (available: bool, addresses: seq<string>)
    ensures available <==> result.Some? && |result.value| > 0
    ensures addresses == Addresses(result)
  {
    available := false;
    addresses := [];
    match result {
      case Some(lines) =>
        for i := 0 to |lines|
          invariant available <==> i > 0
          invariant addresses == AddressList(lines[..i])
        {
          var parts := Tokens(lines[i]);
          var address := Field(parts, 4);
          available := true;
          assert lines[..i + 1][..i] == lines[..i];
          addresses := addresses + [address];
        }
        assert lines[..|lines|] == lines;
      case None =>
    }
  }

  /** Looks up the A and then the AAAA addresses of the nameserver named by one NS
      answer line and summarises them. */
  method CheckNameserver(line: string, resolver: Resolver) returns (s: NsaRecords)
    modifies resolver
    ensures s == NsSummary(resolver.answer, line)
    ensures resolver.log == old(resolver.log) + [Query(NsTarget(line), A, false), Query(NsTarget(line), AAAA, false)]
  {
    var parts := Tokens(line);
    var nsdomain := Field(parts, 4);
    var data := DataField(parts);

    var operational := false;
    var ipv4Result := resolver.Lookup(Query(data, A, false));
    var ipv6Result := resolver.Lookup(Query(data, AAAA, false));
    if ipv4Result.Some? || ipv6Result.Some? {
      operational := true;
    }
    var ipv4available, ipv4Addresses := GatherAddresses(ipv4Result);
    var ipv6available, ipv6Addresses := GatherAddresses(ipv6Result);
    s := NsaRecords(nsdomain, operational, ipv4available, ipv6available, ipv4Addresses, ipv6Addresses);
  }

  lemma NsStep(answer: Oracle, lines: seq<string>, i: nat)
    requires i < |lines|
    ensures NsQueries(lines[..i + 1])
         == NsQueries(lines[..i]) + [Query(NsTarget(lines[i]), A, false), Query(NsTarget(lines[i]), AAAA, false)]
    ensures NsSummaries(answer, lines[..i + 1]) == NsSummaries(answer, lines[..i]) + [NsSummary(answer, lines[i])]
  {
    assert lines[..i + 1][..i] == lines[..i];
  }

  method CheckNs(domain: string, resolver: Resolver) returns (r: Result<NsRecord>)
    modifies resolver
    ensures r == NsReport(resolver.answer, domain)
    ensures var nsAnswer := resolver.answer(Query(domain, NS, false));
      resolver.log == old(resolver.log) + [Query(domain, NS, false)]
        + (if nsAnswer.Some? then NsQueries(nsAnswer.value) else [])
  {
    var result := resolver.Lookup(Query(domain, NS, false));
    var nsRecords := NsRecord(domain, []);
    match result {
      case Some(lines) =>
        ghost var start := resolver.log;
        for i := 0 to |lines|
          invariant resolver.log == start + NsQueries(lines[..i])
          invariant nsRecords == NsRecord(domain, NsSummaries(resolver.answer, lines[..i]))
        {
          NsStep(resolver.answer, lines, i);
          ghost var pairs := [Query(NsTarget(lines[i]), A, false), Query(NsTarget(lines[i]), AAAA, false)];
          AppendAssoc(start, NsQueries(lines[..i]), pairs);
          var summary := CheckNameserver(lines[i], resolver);
          nsRecords := nsRecords.(records := nsRecords.records + [summary]);
        }
        assert lines[..|lines|] == lines;
        r := Ok(nsRecords);
      case None =>
        r := Err(Msg("No NS records found"));
    }
  }

  /** A nameserver whose A lookup succeeds with no answers and whose AAAA lookup fails
      is operational with neither address family available. */
  lemma OperationalWithoutAddresses(answer: Oracle, line: string)
    requires answer(Query(NsTarget(line), A, false)) == Some([])
    requires answer(Query(NsTarget(line), AAAA, false)).None?
    ensures var s := NsSummary(answer, line);
      s.operational && !s.ipv4available && !s.ipv6available
      && s.ipv4Addresses == [] && s.ipv6Addresses == []
  {
  }
}
