/** The boundary to the DNS resolver library. A resolver is an oracle from a query to
    either a failure or the answer records, each already rendered to its one-line
    text form; the checks above it only ever see those rendered lines. The resolver
    object also keeps the sequence of queries sent to it, so that the query plan of
    each check can be stated. */
module Resolving {

  datatype Option<T> = None | Some(value: T)

  /** An error returned by a check: a fixed message, or the resolver's own error
      passed through unchanged (its content is not modelled). */
  datatype Error = Msg(text: string) | Resolve

  datatype Result<T> = Ok(value: T) | Err(error: Error)

  /** The record types the checks query. */
  datatype RecordType = A | AAAA | CNAME | MX | NS | PTR | SOA | TXT | CAA | DNSKEY | DS | SSHFP | SRV
  {
    /** The name a record type is reported under (the variant's own name). */
    function Name(): string {
      match this
      case A => "A"
      case AAAA => "AAAA"
      case CNAME => "CNAME"
      case MX => "MX"
      case NS => "NS"
      case PTR => "PTR"
      case SOA => "SOA"
      case TXT => "TXT"
      case CAA => "CAA"
      case DNSKEY => "DNSKEY"
      case DS => "DS"
      case SSHFP => "SSHFP"
      case SRV => "SRV"
    }
  }

  /** Distinct record types are reported under distinct names. */
  lemma NameInjective(s: RecordType, t: RecordType)
    ensures s.Name() == t.Name() ==> s == t
  {
  }

  /** One lookup: a name, a record type, and whether DNSSEC validation was requested. */
  datatype Query = Query(name: string, recordType: RecordType, validate: bool)

  /** What the upstream DNS answers: None for a failed lookup, otherwise the
      rendered answer records in the order the resolver returns them. */
  type Oracle = Query -> Option<seq<string>>

  class Resolver {
    const answer: Oracle
    /** Every query sent so far, oldest first. */
    var log: seq<Query>

    constructor (answer: Oracle)
      ensures this.answer == answer && log == []
    {
      this.answer := answer;
      log := [];
    }

    method Lookup(q: Query) returns (r: Option<seq<string>>)
      modifies this
      ensures r == answer(q)
      ensures log == old(log) + [q]
    {
      r := answer(q);
      log := log + [q];
    }
  }
}
