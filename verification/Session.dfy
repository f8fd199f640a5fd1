/** The administrator session cookie, `<id>:<expiry>.<hex of HMAC>`.
    HMAC-SHA256 (RFC 2104, section 2) is the uninterpreted function `mac`. */
module Session {
  import opened Wrappers
  import opened Text

  type Key = seq<byte>
  type Mac = (Key, string) -> seq<byte>

  const SESSION_SECONDS := 7 * 86400

  function Payload(id: int, issued: int): string {
    PrintInt(id) + ":" + PrintInt(issued + SESSION_SECONDS)
  }

  /** `issued` is the Unix time of issue in whole seconds. */
  function Sign(mac: Mac, key: Key, id: int, issued: int): string {
    Payload(id, issued) + "." + HexEncode(mac(key, Payload(id, issued)))
  }

  function Verify(mac: Mac, key: Key, val: string, now: int): Option<int> {
    var (payload, sig) :- SplitLast(val, '.');
    var provided :- HexDecode(sig);
    if mac(key, payload) != provided then None
    else
      var (idText, expText) :- SplitFirst(payload, ':');
      var id :- ParseI64(idText);
      var exp :- ParseI64(expText);
      if now >= exp then None else Some(id)
  }

  /** What an accepted cookie is, said without saying how it is taken apart. */
  ghost predicate Genuine(mac: Mac, key: Key, val: string, now: int, id: int,
                          idText: string, expText: string, sig: string) {
    && val == idText + ":" + expText + "." + sig
    && ':' !in idText && '.' !in sig
    && HexDecode(sig) == Some(mac(key, idText + ":" + expText))
    && ParseI64(idText) == Some(id)
    && ParseI64(expText).Some? && now < ParseI64(expText).value
  }

  lemma VerifyAcceptsGenuine(mac: Mac, key: Key, val: string, now: int, id: int,
                             idText: string, expText: string, sig: string)
    requires Genuine(mac, key, val, now, id, idText, expText, sig)
    ensures Verify(mac, key, val, now) == Some(id)
  {
    var payload := idText + ":" + expText;
    assert val == payload + "." + sig;
    LastCutUnique(payload, '.', sig);
    FirstCutUnique(idText, ':', expText);
  }

  /** Verification accepts exactly the genuine cookies. */
  lemma VerifyIffGenuine(mac: Mac, key: Key, val: string, now: int, id: int)
    ensures Verify(mac, key, val, now) == Some(id)
       <==> exists idText, expText, sig :: Genuine(mac, key, val, now, id, idText, expText, sig)
  {
    if Verify(mac, key, val, now) == Some(id) {
      var (payload, sig) := SplitLast(val, '.').value;
      var (idText, expText) := SplitFirst(payload, ':').value;
      assert payload == idText + ":" + expText;
      assert Genuine(mac, key, val, now, id, idText, expText, sig);
    }
    if idText, expText, sig :| Genuine(mac, key, val, now, id, idText, expText, sig) {
      VerifyAcceptsGenuine(mac, key, val, now, id, idText, expText, sig);
    }
  }

  lemma PayloadParts(id: int, issued: int)
    requires IsI64(id) && IsI64(issued + SESSION_SECONDS)
    ensures SplitFirst(Payload(id, issued), ':')
         == Some((PrintInt(id), PrintInt(issued + SESSION_SECONDS)))
    ensures ParseI64(PrintInt(id)) == Some(id)
    ensures ParseI64(PrintInt(issued + SESSION_SECONDS)) == Some(issued + SESSION_SECONDS)
  {
    FirstCutUnique(PrintInt(id), ':', PrintInt(issued + SESSION_SECONDS));
    I64RoundTrip(id);
    I64RoundTrip(issued + SESSION_SECONDS);
  }

  /** A signed cookie under any key: it is accepted exactly when that key gives the payload
      the same code and the clock is before the expiry, and then it names the signed id. */
  lemma VerifyOfSign(mac: Mac, key: Key, other: Key, id: int, issued: int, now: int)
    requires IsI64(id) && IsI64(issued + SESSION_SECONDS)
    ensures Verify(mac, other, Sign(mac, key, id, issued), now)
         == if mac(other, Payload(id, issued)) == mac(key, Payload(id, issued))
               && now < issued + 7 * 24 * 60 * 60
            then Some(id) else None
  {
    var payload := Payload(id, issued);
    var sig := HexEncode(mac(key, payload));
    LastCutUnique(payload, '.', sig);
    HexRoundTrip(mac(key, payload));
    PayloadParts(id, issued);
  }

  /** The round trip: with the signing key, the id comes back exactly until the expiry. */
  lemma RoundTrip(mac: Mac, key: Key, id: int, issued: int, now: int)
    requires IsI64(id) && IsI64(issued + SESSION_SECONDS)
    ensures Verify(mac, key, Sign(mac, key, id, issued), now)
         == if now < issued + 7 * 24 * 60 * 60 then Some(id) else None
  {
    VerifyOfSign(mac, key, key, id, issued, now);
  }

  /** Cookies of different administrators, or of different issue times, differ. */
  lemma SignInjective(mac: Mac, key: Key, id: int, issued: int, id': int, issued': int)
    requires IsI64(id) && IsI64(issued + SESSION_SECONDS)
    requires IsI64(id') && IsI64(issued' + SESSION_SECONDS)
    requires Sign(mac, key, id, issued) == Sign(mac, key, id', issued')
    ensures id == id' && issued == issued'
  {
    LastCutUnique(Payload(id, issued), '.', HexEncode(mac(key, Payload(id, issued))));
    LastCutUnique(Payload(id', issued'), '.', HexEncode(mac(key, Payload(id', issued'))));
    assert Payload(id, issued) == Payload(id', issued');
    PayloadParts(id, issued);
    PayloadParts(id', issued');
  }

  /** The text of a cookie: the id, the time seven days after the issue, and the code of both in
      lower-case hexadecimal, each digit where it belongs. */
  lemma SignedText(mac: Mac, key: Key, id: int, issued: int, i: nat)
    requires i < |mac(key, Payload(id, issued))|
    ensures var payload := PrintInt(id) + ":" + PrintInt(issued + 7 * 24 * 60 * 60);
      var code := mac(key, payload); var text := Sign(mac, key, id, issued);
      && |text| == |payload| + 1 + 2 * |code| && text[..|payload| + 1] == payload + "."
      && i < |code|
      && text[|payload| + 1 + 2 * i] == "0123456789abcdef"[code[i] as int / 16]
      && text[|payload| + 2 + 2 * i] == "0123456789abcdef"[code[i] as int % 16]
  {
    var payload := Payload(id, issued);
    assert payload == PrintInt(id) + ":" + PrintInt(issued + 7 * 24 * 60 * 60);
    var hex := HexEncode(mac(key, payload));
    HexDigits(mac(key, payload), i);
    assert Sign(mac, key, id, issued) == payload + "." + hex;
  }
}
