# bright: DNS and mail diagnostics, modelled in Dafny

This project models the diagnostic engine of *bright*, a domain-health service. Given a
domain name it

- aggregates a fixed list of DNS lookups into a flat list of records (`dns_records`,
  `check_and_add_record`);
- reads the domain's CAA policy and whether incident reporting (an `iodef` tag) is set
  (`check_caa`);
- summarises every nameserver of the domain: whether it answers, and its IPv4 and IPv6
  addresses (`check_ns`);
- describes every mail exchanger: preference, name, first IPv4 and IPv6 address, the
  PTR record of the IPv4 address and whether a DNSSEC-validated DNSKEY lookup of its
  name succeeds (`check_email`, `check_record`, `check_dnssec`).

The resolver is not modelled. Each lookup goes to an oracle
(`Resolving.Oracle = Query -> Option<seq<string>>`): `None` is a failed lookup, and
`Some(lines)` holds the answer records, each already rendered as its one-line text
form. Everything above the oracle is modelled as the code does it: the rendered line
is split on whitespace and fields are taken by token position, with `""`, `0` or
`false` when a field is missing. A `Resolving.Resolver` object holds the oracle and a
log of every query sent to it, so the order and number of lookups of each check are
part of the contracts.

Files:

- `text.dfy` (module `Text`): whitespace tokenising (`split_whitespace`), joining,
  splitting on one character (`split('.')`), reversal, character removal (`replace`).
- `resolving.dfy` (module `Resolving`): record types, queries, the oracle, the resolver
  object with its query log, and the `Result`/`Error` types of the checks.
- `dns.dfy` (module `Dns`): the record aggregator, the CAA check and the nameserver
  check.
- `email.dfy` (module `Email`): signed 8-bit preference parsing, the single-record
  helper, the DNSSEC probe, reverse-lookup names and the mail check.

Each check is an imperative method that drives the resolver, proved against a
function that states its result for every possible set of answers. The properties are
proved as lemmas about those functions.

Points where the code's behaviour is easy to misread:

- The aggregator issues 21 lookups: 11 at the domain itself (every listed type except
  TXT; SRV is in the skip test but not in the list), `www.` A and AAAA, 4 SRV and 4 TXT
  names.
- The CAA value keeps its quotes (`"ca.example.net"`), because it is a raw token.
- The mail check issues the PTR lookup even when the exchanger has no IPv4 address.
  It then queries the bare name `.in-addr.arpa`.
- The nameserver check looks up A and AAAA of the data field (tokens 4 onward, joined
  with spaces), not of token 4 alone.
- No code computes IPv6 reverse names, probes TCP port 53, queries a single pinned
  nameserver or compares against the SOA record. None of that is modelled.

## Model

| member | source | states |
|---|---|---|
| Text.Tokens | src/dns.rs:83 | every token of a rendered line is non-empty and free of whitespace |
| Text.TokensOfJoin | src/dns.rs:83 | tokenising words joined with single spaces gives the words back |
| Text.TokensKeepText | src/dns.rs:83 | the tokens laid end to end are the line's non-whitespace characters in order |
| Text.TokensNormal | src/dns.rs:83 | re-joining the tokens and tokenising again changes nothing |
| Text.TokensSplitAtSpace | src/dns.rs:83 | a whitespace character splits a line: the tokens of the whole are those of the part before it followed by those of the part after it |
| Text.DataFieldOf | src/dns.rs:87-90 | the data field is tokens 4 onward joined with single spaces; it is `""` exactly when the line has fewer than 5 tokens, and otherwise tokenises back to tokens 4 onward |
| Text.JoinEmpty | src/dns.rs:87-90 | joining words gives `""` exactly when there are none |
| Text.Split | src/email.rs:80-81 | splitting gives at least one piece, and no piece contains the separator |
| Text.JoinSplit | src/email.rs:80-84 | joining the pieces with the separator restores the string |
| Text.SplitJoin | src/email.rs:80-84 | splitting a join of separator-free pieces gives the pieces back |
| Text.Reverse | src/email.rs:82 | the reversal has the same length and element `i` is element `n-1-i` |
| Text.ReverseReverse | src/email.rs:82 | reversing twice restores the sequence |
| Text.Without | src/dns.rs:133-134 | the removed character is absent; every other character is kept; a string without it is unchanged |
| Text.WithoutAppend | src/dns.rs:133-134 | removing a character from a concatenation removes it from each part, in order |
| Text.WithoutChar | src/dns.rs:133-134 | a one-character string loses its character exactly when it is the removed one, and is otherwise kept |
| Resolving.NameInjective | src/dns.rs:95 | distinct record types are reported under distinct names |
| Resolving.Resolver.Lookup | src/dns.rs:78 | a lookup returns the oracle's answer and appends the query to the log |
| Dns.DnsRecordFields | src/dns.rs:83-95 | the record `ToDnsRecord` builds from a line: name is token 0 or `""`, TTL token 1 or `""`, type the queried type's name, data tokens 4 onward joined with single spaces, `""` exactly below 5 tokens |
| Dns.DnsRecordOfRendering | src/dns.rs:83-97 | a rendering laid out as words gives back its name, TTL and data words |
| Dns.Records | src/dns.rs:81-98 | one record per answer line |
| Dns.RecordsAt | src/dns.rs:81-98 | record `i` is the one extracted from answer line `i` |
| Dns.CheckAndAddRecord | src/dns.rs:72-104 | issues one lookup; appends one record per answer in order after the existing ones; a failed lookup appends nothing |
| Dns.CheckAndAddApex | src/dns.rs:47-53 | looks up the domain for each listed type except SRV and TXT, in list order, appending what each finds |
| Dns.CheckAndAddSubdomains | src/dns.rs:59-67 | looks up `<label>.<domain>` for each label in order, appending what each finds |
| Dns.CollectDnsRecords | src/dns.rs:20-70 | issues exactly the query plan, in order, and the result is what the plan's lookups find, in plan order |
| Dns.ApexPlanIs | src/dns.rs:21-53 | the apex lookups are the 11 listed types other than TXT, in list order |
| Dns.QueryPlanIs | src/dns.rs:20-67 | the full plan, written out: 11 apex types, `www.` A then AAAA, 4 SRV names, 4 TXT names |
| Dns.QueryPlanSize | src/dns.rs:20-67 | the plan has 21 lookups and never includes the apex TXT lookup |
| Dns.CollectAppend | src/dns.rs:47-67 | running two plans in turn gives the first list followed by the second: later lookups never change earlier entries |
| Dns.CollectAllFailed | src/dns.rs:100 | when every lookup fails the list stays empty |
| Dns.CollectStep | src/dns.rs:79-101 | a successful lookup keeps the existing prefix and adds exactly one record per answer, in answer order |
| Dns.CaaRecordFields | src/dns.rs:126-145 | the entry `ToCaaRecord` builds from a line: name is token 0, `""` exactly when there are no tokens; tag is token 5 when present, else token 4 with every `/` and then every `"` removed, else `""`; value is token 6, else token 5, else `""` |
| Dns.CaaFallbackTagUnquoted | src/dns.rs:133-134 | a quoted tag standing alone in token 4, such as `"iodef"`, loses its quotes and nothing else |
| Dns.CaaRecords | src/dns.rs:122-152 | one CAA entry per answer |
| Dns.CaaRecordsAt | src/dns.rs:122-152 | entry `i` is the one built from answer `i` |
| Dns.HasIodefSnoc | src/dns.rs:137-139 | adding an entry sets reporting exactly when its tag is `iodef`, and never clears it |
| Dns.CaaReportSpec | src/dns.rs:106-157 | the result `CaaReport` states: error `No CAA records found` exactly when the lookup fails; otherwise the record exists even with no answers, one entry per answer in order, and reporting is enabled exactly when some tag is `iodef` |
| Dns.CheckCaa | src/dns.rs:106-157 | issues one CAA lookup and returns the CAA report for its answer |
| Dns.CaaOfFullRendering | src/dns.rs:126-151 | `<name> <ttl> <class> CAA <flags> <tag> <value>` gives that name, tag and value, quotes kept |
| Dns.CaaIodefEnablesReporting | src/dns.rs:116-139 | an `iodef` answer enables reporting; a successful lookup without answers still reports that the record exists |
| Dns.AddressList | src/dns.rs:200-230 | one address per answer |
| Dns.AddressListAt | src/dns.rs:202-210 | address `i` is token 4 of answer `i` |
| Dns.GatherAddresses | src/dns.rs:200-230 | the family is available exactly when its lookup succeeded with at least one answer, and the list holds token 4 of each answer |
| Dns.NsSummarySpec | src/dns.rs:174-239 | the summary `NsSummary` builds for one NS answer: named by token 4 of the answer; operational exactly when the A or the AAAA lookup succeeded; each family available exactly when its lookup gave at least one answer; each list has one entry per answer, token 4 of that answer, in order |
| Dns.OperationalWithoutAddresses | src/dns.rs:196-214 | a nameserver whose A lookup succeeds empty and whose AAAA lookup fails is operational with no family available |
| Dns.NsSummaries | src/dns.rs:171-240 | one summary per NS answer |
| Dns.NsSummariesAt | src/dns.rs:171-240 | summary `i` is the one for NS answer `i` |
| Dns.NsQueries | src/dns.rs:187-194 | two lookups per NS answer |
| Dns.NsReport | src/dns.rs:159-245 | error `No NS records found` exactly when the NS lookup fails; otherwise named after the domain with one summary per NS answer |
| Dns.NsReportInOrder | src/dns.rs:171-241 | summary `i` of a successful check is the one for NS answer `i` |
| Dns.CheckNameserver | src/dns.rs:172-239 | looks up A then AAAA of the data field and returns that nameserver's summary |
| Dns.CheckNs | src/dns.rs:159-245 | issues the NS lookup then A and AAAA per answer, and returns the nameserver report |
| Email.ParseI8 | src/email.rs:75 | a parsed value has an optional sign followed by at least one digit and nothing else, so a lone sign never parses |
| Email.ParseI8OfNumeral | src/email.rs:75 | a digit string, bare or after `+`, parses to its value exactly when it is at most 127; after `-` to its negation exactly when it is at most 128; otherwise nothing parses |
| Email.ParseShowInt8 | src/email.rs:75 | every value from -128 to 127, written out in decimal, parses back to itself |
| Email.ParseI8Accepts | src/email.rs:75 | `10`, `-128`, `+007` and `127` parse to their values |
| Email.ParseI8Rejects | src/email.rs:75 | `128`, `200`, the empty string, a lone `-`, a lone `+` and `1a` do not parse |
| Email.Preference | src/email.rs:74-75 | 0 when token 4 is missing or does not parse, otherwise its parsed value |
| Email.PreferenceOfShown | src/email.rs:74-75 | a preference written in token 4 is read back exactly |
| Email.LastToken | src/email.rs:29 | `""` exactly when the line has no token, otherwise the last token |
| Email.LastTokenOfJoin | src/email.rs:29 | the last token of words joined with spaces is the last word |
| Email.RecordValue | src/email.rs:21-39 | error exactly when the lookup fails; `""` for a successful lookup without answers; otherwise the last token of the first answer |
| Email.RecordValueFirstOnly | src/email.rs:27-30 | answers after the first never change the result, which is `""` exactly when the first answer has no token |
| Email.CheckRecord | src/email.rs:21-39 | issues one lookup and returns the single-record result for its answer |
| Email.DnssecStatus | src/email.rs:52-60 | never an error; true exactly when the lookup succeeded |
| Email.CheckDnssec | src/email.rs:41-61 | issues one validated DNSKEY lookup and returns its status |
| Email.ReverseLabelsInvolution | src/email.rs:80-84 | reversing the dot-separated labels twice restores any string |
| Email.InAddrArpaInjective | src/email.rs:80-86 | distinct addresses give distinct reverse names |
| Email.InAddrArpaOfQuad | src/email.rs:80-86 | the reverse name `InAddrArpa` of `a.b.c.d` is `d.c.b.a.in-addr.arpa` |
| Email.InAddrArpaExample | src/email.rs:80-86 | `192.0.2.10` gives `10.2.0.192.in-addr.arpa` |
| Email.InAddrArpaOfEmpty | src/email.rs:80-86 | an empty address gives `.in-addr.arpa` |
| Email.MxEntrySpec | src/email.rs:74-98 | the entry `MxEntry` builds for one MX answer: name is token 5 or `""`; preference is token 4 parsed, 0 when missing or unparsable; ipv4, ipv6 and ptr are `""` when their lookup fails or is empty, else the last token of the first answer; PTR is looked up at the reverse name of the ipv4 field; dnssec is whether the DNSKEY lookup succeeded |
| Email.PtrQueriedWithoutAddress | src/email.rs:77-88 | with a failed A lookup the PTR lookup is still issued, at `.in-addr.arpa` |
| Email.MxOfRendering | src/email.rs:73-76 | `<owner> <ttl> <class> MX <preference> <exchanger>` gives that exchanger and that preference |
| Email.MxEntries | src/email.rs:71-101 | one entry per MX answer |
| Email.MxEntriesAt | src/email.rs:71-101 | entry `i` is the one built from MX answer `i` |
| Email.MxPlan | src/email.rs:77-89 | four lookups per MX answer |
| Email.EmailOf | src/email.rs:63-114 | error exactly when the MX lookup fails; otherwise one entry per MX answer |
| Email.EmailOfInOrder | src/email.rs:69-113 | entry `i` of a successful check is the one for MX answer `i` |
| Email.CheckMx | src/email.rs:72-100 | issues A, AAAA, PTR and validated DNSKEY lookups for one MX answer and returns its entry |
| Email.CheckEmail | src/email.rs:63-114 | issues the MX lookup then four lookups per answer, and returns the mail report |

## Left out

- Real DNS: resolver construction with the Quad9 configuration, the network lookups and
  the library's rendering of a record to text. They are replaced by the oracle, and the
  rendered form of each answer is an input.
- Failures of resolver construction: the `?` on `Resolver::new` and the `unwrap` panics
  (src/dns.rs:52, src/email.rs:45). They are failures of a foreign library, not logic.
- Each check builds a fresh resolver; the model sends every lookup to the same oracle.
  So caching or changing answers between lookups are not modelled.
- The DNSSEC validation machinery. Only "the validated lookup succeeded" is modelled,
  as a flag on the query.
- The content of a resolver error passed through by `check_record` and `check_email`:
  it is the opaque `Resolve` error.
- Whitespace beyond ASCII: tokens are split at space and U+0009 to U+000D only.
- The record-type name is the variant's own name, not the library's `Debug` output.
- The query interface, the server routing and the plain struct declarations
  (src/graphql.rs, src/main.rs, src/types.rs) are not part of this model.
