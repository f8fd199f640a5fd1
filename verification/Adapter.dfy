/** Classification of an upstream status code by a platform's configured code lists. */
module Adapter {
  import opened Wrappers
  import opened Text

  datatype CallOutcome = Success | HardRevokedCode | RateLimited | Transient | OtherError

  datatype StatusCodes = StatusCodes(revoke: seq<nat>, rate: seq<nat>)

  /** The fields that parse, in order; the others are skipped. */
  function ParseFields(fields: seq<string>): seq<nat> {
    if fields == [] then []
    else
      match ParseU16(Trim(fields[0]))
      case Some(n) => [n] + ParseFields(fields[1..])
      case None => ParseFields(fields[1..])
  }

  function ParseCodes(revoke: string, rate: string): StatusCodes {
    StatusCodes(ParseFields(SplitAll(revoke, ',')), ParseFields(SplitAll(rate, ',')))
  }

  function Classify(code: nat, codes: StatusCodes): CallOutcome {
    if 200 <= code < 300 then Success
    else if 500 <= code < 600 then Transient
    else if code in codes.revoke then HardRevokedCode
    else if code in codes.rate then RateLimited
    else OtherError
  }

  function PrintAll(codes: seq<nat>): seq<string> {
    if codes == [] then [] else [PrintNat(codes[0])] + PrintAll(codes[1..])
  }

  lemma {:induction false} TrimDigits(s: string)
    requires forall i :: 0 <= i < |s| ==> IsDigit(s[i])
    ensures Trim(s) == s
  {
    if s != "" { assert IsDigit(s[0]) && IsDigit(s[|s| - 1]); }
  }

  lemma {:induction false} FieldsRoundTrip(codes: seq<nat>)
    requires forall i :: 0 <= i < |codes| ==> codes[i] < 0x1_0000
    ensures |PrintAll(codes)| == |codes| && ParseFields(PrintAll(codes)) == codes
    ensures forall i :: 0 <= i < |codes| ==> ',' !in PrintAll(codes)[i]
  {
    if codes != [] {
      var s := PrintNat(codes[0]);
      TrimDigits(s);
      NatRoundTrip(codes[0]);
      assert IsDigit(s[0]);
      FieldsRoundTrip(codes[1..]);
      assert PrintAll(codes)[1..] == PrintAll(codes[1..]);
      assert [codes[0]] + codes[1..] == codes;
    }
  }

  lemma ListRoundTrip(codes: seq<nat>)
    requires forall i :: 0 <= i < |codes| ==> codes[i] < 0x1_0000
    ensures ParseFields(SplitAll(Join(PrintAll(codes), ','), ',')) == codes
  {
    FieldsRoundTrip(codes);
    if codes == [] {
      assert SplitAll("", ',') == [""];
    } else {
      SplitJoin(PrintAll(codes), ',');
    }
  }

  /** A list of codes written in the configured form is read back as itself,
      so an administrator can configure any list of 16-bit codes, the empty one too. */
  lemma CodesRoundTrip(revoke: seq<nat>, rate: seq<nat>)
    requires forall i :: 0 <= i < |revoke| ==> revoke[i] < 0x1_0000
    requires forall i :: 0 <= i < |rate| ==> rate[i] < 0x1_0000
    ensures ParseCodes(Join(PrintAll(revoke), ','), Join(PrintAll(rate), ',')) == StatusCodes(revoke, rate)
  {
    ListRoundTrip(revoke);
    ListRoundTrip(rate);
  }

  /** A numeral of 16 bits with blanks around it, perhaps. */
  ghost predicate FieldOf(field: string, n: nat) {
    exists l, t, r :: field == l + t + r && AllBlank(l) && AllBlank(r) && U16Numeral(t, n)
  }

  lemma FieldIff(field: string, n: nat)
    ensures ParseU16(Trim(field)) == Some(n) <==> FieldOf(field, n)
  {
    var l, r := TrimParts(field);
    U16Iff(Trim(field), n);
    if l', t, r' :| field == l' + t + r' && AllBlank(l') && AllBlank(r') && U16Numeral(t, n) {
      U16NumeralIsBare(t, n);
      TrimUnique(l', t, r');
    }
  }

  lemma {:induction false} FieldsExact(fields: seq<string>, n: nat)
    ensures n in ParseFields(fields) <==> exists f :: f in fields && FieldOf(f, n)
  {
    if fields != [] {
      FieldsExact(fields[1..], n);
      FieldIff(fields[0], n);
      assert fields == [fields[0]] + fields[1..];
      assert ParseU16(Trim(fields[0])) == Some(n) ==> FieldOf(fields[0], n);
    }
  }

  /** A code is in a configured list exactly when one of the fields between the commas is that
      number, with blanks around it or not; fields that are not numbers count for nothing. */
  lemma CodesExact(revoke: string, rate: string, n: nat)
    ensures var codes := ParseCodes(revoke, rate);
      && (n in codes.revoke <==> exists f :: f in SplitAll(revoke, ',') && FieldOf(f, n))
      && (n in codes.rate <==> exists f :: f in SplitAll(rate, ',') && FieldOf(f, n))
  {
    FieldsExact(SplitAll(revoke, ','), n);
    FieldsExact(SplitAll(rate, ','), n);
  }
}
