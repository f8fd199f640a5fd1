/** The cache of HTTP clients, one for each textual key of proxy and timeout. */
module Clients {
  import opened Wrappers
  import opened Text
  import opened PoolState

  /** What a client is built from: the proxy's URL and the timeout. */
  datatype Client = Client(url: string, timeout: nat)

  function User(p: ProxyEntry): string { p.username.GetOr("") }
  function Password(p: ProxyEntry): string { p.password.GetOr("") }

  function CacheKey(p: ProxyEntry, timeout: nat): string {
    p.host + "|" + (PrintInt(p.port) + "|" + (User(p) + "|" + Password(p))) + "|" + PrintInt(timeout)
  }

  /** Credentials are used only when both are there and the user name is not empty. */
  predicate HasAuth(p: ProxyEntry) {
    p.username.Some? && p.password.Some? && p.username.value != ""
  }

  function Auth(p: ProxyEntry): string {
    if HasAuth(p) then User(p) + ":" + Password(p) + "@" else ""
  }

  function Build(p: ProxyEntry, timeout: nat): Client {
    Client("http://" + Auth(p) + p.host + ":" + PrintInt(p.port), timeout)
  }

  /** The parts of a proxy's URL, as section 3.2 of RFC 3986 delimits them: user and password if there
      are credentials, the host, and the port. */
  function ReadUrl(url: string): Option<(Option<(string, string)>, string, string)> {
    if |url| < 7 || url[..7] != "http://" then None
    else
      match SplitLast(url[7..], '@')
      case None =>
        var (host, port) :- SplitLast(url[7..], ':');
        Some((None, host, port))
      case Some(parts) =>
        var (user, password) :- SplitFirst(parts.0, ':');
        var (host, port) :- SplitLast(parts.1, ':');
        Some((Some((user, password)), host, port))
  }

  lemma PrintIsPlain(n: int)
    ensures '@' !in PrintInt(n) && ':' !in PrintInt(n)
  {
    var s := PrintNat(if n < 0 then -n else n);
    assert forall i :: 0 <= i < |s| ==> IsDigit(s[i]);
  }

  /** The client of a proxy goes through that proxy's host and port, with its user name and password
      in that order if it has both and the name is not empty, and waits as long as it is told. */
  lemma ClientGoesThroughItsProxy(p: ProxyEntry, timeout: nat)
    requires '@' !in p.host && (p.username.Some? ==> ':' !in p.username.value)
    ensures var c := Build(p, timeout);
      && c.timeout == timeout
      && ReadUrl(c.url) == Some((
           if p.username.Some? && p.username.value != "" && p.password.Some?
           then Some((p.username.value, p.password.value)) else None,
           p.host, PrintInt(p.port)))
  {
    PrintIsPlain(p.port);
    var port := PrintInt(p.port);
    var place := p.host + ":" + port;
    LastCutUnique(p.host, ':', port);
    assert Build(p, timeout).url == "http://" + (Auth(p) + place);
    if HasAuth(p) {
      assert Auth(p) + place == p.username.value + ":" + p.password.value + "@" + place;
      CredentialsRead(p.username.value, p.password.value, place);
    } else {
      assert Auth(p) + place == place;
      PlaceRead(place);
    }
  }

  lemma CredentialsRead(user: string, password: string, place: string)
    requires ':' !in user && '@' !in place && SplitLast(place, ':').Some?
    ensures var (host, port) := SplitLast(place, ':').value;
      ReadUrl("http://" + (user + ":" + password + "@" + place)) == Some((Some((user, password)), host, port))
  {
    var auth := user + ":" + password;
    var url := "http://" + (auth + "@" + place);
    assert url[7..] == auth + "@" + place;
    LastCutUnique(auth, '@', place);
    FirstCutUnique(user, ':', password);
  }

  lemma PlaceRead(place: string)
    requires '@' !in place && SplitLast(place, ':').Some?
    ensures var (host, port) := SplitLast(place, ':').value;
      ReadUrl("http://" + place) == Some((None, host, port))
  {
    assert ("http://" + place)[7..] == place;
  }

  /** The key can be read back: neither the host nor the user name holds the separator. */
  predicate Readable(p: ProxyEntry) { '|' !in p.host && '|' !in User(p) }

  /** A host, a port and what follows, separated. */
  function Parts(host: string, port: int, rest: string): string { host + "|" + (PrintInt(port) + "|" + rest) }

  lemma PartsDetermine(host: string, port: int, rest: string, host': string, port': int, rest': string)
    requires '|' !in host && '|' !in host' && Parts(host, port, rest) == Parts(host', port', rest')
    ensures host == host' && port == port' && rest == rest'
  {
    FirstCutUnique(host, '|', PrintInt(port) + "|" + rest);
    FirstCutUnique(host', '|', PrintInt(port') + "|" + rest');
    FirstCutUnique(PrintInt(port), '|', rest);
    FirstCutUnique(PrintInt(port'), '|', rest');
    PrintIntInjective(port, port');
  }

  /** A readable key determines everything but whether an empty user name or password is there. */
  lemma KeyDetermines(p: ProxyEntry, s: nat, q: ProxyEntry, t: nat)
    requires Readable(p) && Readable(q) && CacheKey(p, s) == CacheKey(q, t)
    ensures p.host == q.host && p.port == q.port && User(p) == User(q) && Password(p) == Password(q) && s == t
  {
    var restP, restQ := User(p) + "|" + Password(p), User(q) + "|" + Password(q);
    assert CacheKey(p, s) == Parts(p.host, p.port, restP) + "|" + PrintInt(s);
    assert CacheKey(q, t) == Parts(q.host, q.port, restQ) + "|" + PrintInt(t);
    LastCutUnique(Parts(p.host, p.port, restP), '|', PrintInt(s));
    LastCutUnique(Parts(q.host, q.port, restQ), '|', PrintInt(t));
    PrintIntInjective(s, t);
    PartsDetermine(p.host, p.port, restP, q.host, q.port, restQ);
    FirstCutUnique(User(p), '|', Password(p));
    FirstCutUnique(User(q), '|', Password(q));
  }

  /** Two proxies with one readable key get the same client exactly when both use credentials or
      neither does. */
  lemma SameKeySameClientIff(p: ProxyEntry, s: nat, q: ProxyEntry, t: nat)
    requires Readable(p) && Readable(q) && CacheKey(p, s) == CacheKey(q, t)
    ensures Build(p, s) == Build(q, t) <==> (HasAuth(p) <==> HasAuth(q))
  {
    KeyDetermines(p, s, q, t);
    if HasAuth(p) != HasAuth(q) {
      assert |Build(p, s).url| != |Build(q, t).url|;
    }
  }

  /** A request for the client of a proxy. */
  datatype Request = Request(proxy: ProxyEntry, timeout: nat)

  function Serve(cache: map<string, Client>, r: Request): (Client, map<string, Client>) {
    var key := CacheKey(r.proxy, r.timeout);
    var c := if key in cache then cache[key] else Build(r.proxy, r.timeout);
    (c, cache[key := c])
  }

  function ServeAll(cache: map<string, Client>, requests: seq<Request>): seq<Client>
    decreases requests
  {
    if requests == [] then []
    else
      var (c, cache') := Serve(cache, requests[0]);
      [c] + ServeAll(cache', requests[1..])
  }

  /** A readable proxy with a password wherever it has a user name. */
  predicate Plain(p: ProxyEntry) {
    Readable(p) && (User(p) != "" ==> p.password.Some?)
  }

  /** Every cached client is the one that plain proxies with its key would build. */
  ghost predicate Coherent(cache: map<string, Client>) {
    forall p, t :: Plain(p) && CacheKey(p, t) in cache ==> cache[CacheKey(p, t)] == Build(p, t)
  }

  lemma ServeKeepsCoherent(cache: map<string, Client>, r: Request)
    requires Coherent(cache) && Plain(r.proxy)
    ensures Coherent(Serve(cache, r).1) && Serve(cache, r).0 == Build(r.proxy, r.timeout)
  {
    var cache' := Serve(cache, r).1;
    forall p, t | Plain(p) && CacheKey(p, t) in cache'
      ensures cache'[CacheKey(p, t)] == Build(p, t)
    {
      if CacheKey(p, t) == CacheKey(r.proxy, r.timeout) {
        KeyDetermines(p, t, r.proxy, r.timeout);
        SameKeySameClientIff(p, t, r.proxy, r.timeout);
      }
    }
  }

  lemma {:induction false} ServedAt(cache: map<string, Client>, requests: seq<Request>, i: nat)
    requires Coherent(cache) && i < |requests| && forall j :: 0 <= j < |requests| ==> Plain(requests[j].proxy)
    ensures i < |ServeAll(cache, requests)|
      && ServeAll(cache, requests)[i] == Build(requests[i].proxy, requests[i].timeout)
    decreases i
  {
    ServeKeepsCoherent(cache, requests[0]);
    if i > 0 { ServedAt(Serve(cache, requests[0]).1, requests[1..], i - 1); }
  }

  lemma {:induction false} ServedEach(cache: map<string, Client>, requests: seq<Request>)
    ensures |ServeAll(cache, requests)| == |requests|
    decreases requests
  {
    if requests != [] { ServedEach(Serve(cache, requests[0]).1, requests[1..]); }
  }

  /** With plain proxies the cache is invisible: every request gets the client it would build. */
  lemma CacheIsInvisible(cache: map<string, Client>, requests: seq<Request>)
    requires Coherent(cache) && forall i :: 0 <= i < |requests| ==> Plain(requests[i].proxy)
    ensures |ServeAll(cache, requests)| == |requests|
    ensures forall i :: 0 <= i < |requests| ==>
      ServeAll(cache, requests)[i] == Build(requests[i].proxy, requests[i].timeout)
  {
    ServedEach(cache, requests);
    forall i | 0 <= i < |requests|
      ensures ServeAll(cache, requests)[i] == Build(requests[i].proxy, requests[i].timeout)
    {
      ServedAt(cache, requests, i);
    }
  }

  function KeyOf(r: Request): string { CacheKey(r.proxy, r.timeout) }

  lemma ServeCaches(cache: map<string, Client>, r: Request)
    ensures var (c, cache') := Serve(cache, r);
      && KeyOf(r) in cache' && cache'[KeyOf(r)] == c
      && forall k :: k in cache ==> k in cache' && cache'[k] == cache[k]
  {
  }

  /** A key that is in the cache stays there, with its client. */
  lemma {:induction false} CachedStays(cache: map<string, Client>, requests: seq<Request>, i: nat, key: string)
    requires i < |requests| && KeyOf(requests[i]) == key && key in cache
    ensures i < |ServeAll(cache, requests)| && ServeAll(cache, requests)[i] == cache[key]
    decreases i
  {
    ServeCaches(cache, requests[0]);
    if i > 0 { CachedStays(Serve(cache, requests[0]).1, requests[1..], i - 1, key); }
  }

  /** Whatever is in the cache: later requests get the client of the first one with their key, if
      only the keys agree, whatever their proxies are. */
  lemma OneClientPerKey(cache: map<string, Client>, requests: seq<Request>, j: nat, key: string)
    requires 0 < j < |requests| && KeyOf(requests[0]) == key == KeyOf(requests[j])
    ensures |ServeAll(cache, requests)| == |requests| && ServeAll(cache, requests)[j] == ServeAll(cache, requests)[0]
  {
    ServedEach(cache, requests);
    ServeCaches(cache, requests[0]);
    var rest := requests[1..];
    assert rest[j - 1] == requests[j];
    CachedStays(Serve(cache, requests[0]).1, rest, j - 1, key);
    FirstThenRest(cache, requests, j);
  }

  lemma FirstThenRest(cache: map<string, Client>, requests: seq<Request>, j: nat)
    requires 0 < j < |requests| == |ServeAll(cache, requests)|
    ensures ServeAll(cache, requests)[0] == Serve(cache, requests[0]).0
    ensures |ServeAll(Serve(cache, requests[0]).1, requests[1..])| == |requests| - 1
    ensures ServeAll(cache, requests)[j] == ServeAll(Serve(cache, requests[0]).1, requests[1..])[j - 1]
  {
  }

  /** Otherwise it is not: the separator in a user name moves the cut, and the second of two
      proxies gets the first one's client. */
  lemma SeparatorCollides()
    ensures exists p: ProxyEntry, q: ProxyEntry, t: nat ::
      p.host == q.host && p.port == q.port && HasAuth(p) && HasAuth(q)
      && CacheKey(p, t) == CacheKey(q, t) && Build(p, t) != Build(q, t)
  {
    var p := ProxyEntry(1, "h", 1, Some("a|b"), Some("c"), None, Database.Available);
    var q := p.(username := Some("a"), password := Some("b|c"));
    assert "a|b" + "|" + "c" == "a" + "|" + "b|c";
    assert CacheKey(p, 1) == CacheKey(q, 1);
    var head := "http://";
    assert Auth(p) == "a|b:c@" && Auth(q) == "a:b|c@";
    assert Build(p, 1).url[8] == '|' && Build(q, 1).url[8] == ':';
  }

  class ClientPool {
    var cache: map<string, Client>

    constructor ()
      ensures Coherent(cache)
    {
      cache := map[];
    }

    /** Every cached client is the one it would build, and stays so: a plain proxy gets its own. */
    method ClientFor(p: ProxyEntry, timeout: nat) returns (c: Client)
      modifies this
      ensures (c, cache) == Serve(old(cache), Request(p, timeout))
      ensures old(Coherent(cache)) && Plain(p) ==> c == Build(p, timeout) && Coherent(cache)
    {
      if Coherent(cache) && Plain(p) { ServeKeepsCoherent(cache, Request(p, timeout)); }
      var key := CacheKey(p, timeout);
      if key in cache {
        c := cache[key];
        assert cache[key := c] == cache;
      } else {
        c := Build(p, timeout);
        cache := cache[key := c];
      }
    }
  }
}
