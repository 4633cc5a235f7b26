/** TURN server URLs: which transports a URL offers, and the list handed to the ICE agent. */
module TurnUrls {
  import opened Bytes
  import opened Text

  datatype Transport = Udp | Tcp

  // ---------- string operations ----------

  function LowerChar(c: char): char {
    if 'A' <= c <= 'Z' then (c as int + 32) as char else c
  }

  function Lower(s: string): (r: string)
    ensures |r| == |s| && forall i :: 0 <= i < |s| ==> r[i] == LowerChar(s[i])
  {
    if s == [] then [] else [LowerChar(s[0])] + Lower(s[1..])
  }

  /** Where `c` first occurs, or the length. */
  function Find(s: string, c: char): (i: nat)
    ensures i <= |s| && c !in s[..i] && (i < |s| ==> s[i] == c)
  {
    if s == [] || s[0] == c then 0 else 1 + Find(s[1..], c)
  }

  function Copies(p: string, k: nat): string { if k == 0 then [] else p + Copies(p, k - 1) }

  /** Removes every leading copy of `p`. */
  function StripAll(s: string, p: string): (r: string)
    requires p != []
    ensures |r| <= |s| && r == s[|s| - |r|..] && !(p <= r)
    decreases |s|
  {
    if p <= s then StripAll(s[|p|..], p) else s
  }

  lemma StripStep(s: string, p: string)
    requires p != [] && p <= s
    ensures StripAll(s, p) == StripAll(s[|p|..], p)
  {
  }

  /** What is stripped is a number of copies of the prefix, and nothing else. */
  lemma {:induction false} StripTakesCopies(s: string, p: string) returns (k: nat)
    requires p != []
    ensures s == Copies(p, k) + StripAll(s, p)
    decreases |s|
  {
    hide StripAll, Copies;
    if p <= s {
      StripStep(s, p);
      k := StripTakesCopies(s[|p|..], p);
      CopiesMore(p, k, StripAll(s, p));
      assert s == p + s[|p|..];
      k := k + 1;
    } else {
      k := 0;
      StripNone(s, p);
    }
  }

  lemma StripNone(s: string, p: string)
    requires p != [] && !(p <= s)
    ensures s == Copies(p, 0) + StripAll(s, p)
  {
  }

  lemma CopiesMore(p: string, k: nat, r: string)
    ensures Copies(p, k + 1) + r == p + (Copies(p, k) + r)
  {
  }

  /** Lower case, and the same text otherwise. */
  lemma LowerIs(s: string)
    ensures forall c :: c in Lower(s) ==> !('A' <= c <= 'Z')
    ensures forall i :: 0 <= i < |s| ==>
              Lower(s)[i] == s[i] || ('A' <= s[i] <= 'Z' && Lower(s)[i] as int == s[i] as int - 'A' as int + 'a' as int)
    ensures forall i :: 0 <= i < |s| && !('A' <= s[i] <= 'Z') ==> Lower(s)[i] == s[i]
  {
    hide Lower;
  }

  lemma FindIs(s: string, c: char, i: nat)
    requires i <= |s| && c !in s[..i] && (i < |s| ==> s[i] == c)
    ensures Find(s, c) == i
  {
  }

  // ---------- reading a URL ----------

  /** The value of the first `transport=` parameter. */
  function TransportParam(query: string): Option<string>
    decreases |query|
  {
    var amp := Find(query, '&');
    var kv := query[..amp];
    var eq := Find(kv, '=');
    if eq < |kv| && kv[..eq] == "transport" then Some(kv[eq + 1..])
    else if amp < |query| then TransportParam(query[amp + 1..])
    else None
  }

  function Normalize(url: string): string { Lower(Trim(url)) }

  function BaseOf(n: string): string { n[..Find(n, '?')] }

  function ParamOf(n: string): Option<string> {
    var q := Find(n, '?');
    if q < |n| then TransportParam(n[q + 1..]) else None
  }

  function TransportOf(url: string): Option<Transport> {
    var n := Normalize(url);
    var base, param := BaseOf(n), ParamOf(n);
    if "turns:" <= base then
      if param == Some("tcp") || param == None then Some(Tcp) else None
    else if !("turn:" <= base) then None
    else if param == Some("udp") || param == None then Some(Udp)
    else if param == Some("tcp") then Some(Tcp)
    else None
  }

  predicate Supported(url: string, tcp: bool) {
    match TransportOf(url) case Some(Udp) => true case Some(Tcp) => tcp case None => false
  }

  function Expand(url: string, tcp: bool): seq<string> {
    var n := Normalize(url);
    var base, param := BaseOf(n), ParamOf(n);
    if "turns:" <= base then
      if !tcp || param == Some("udp") then [] else [Entry(StripAll(base, "turns:"), Tcp)]
    else if !("turn:" <= base) then []
    else
      var host := StripAll(base, "turn:");
      match param
      case None => if tcp then [Entry(host, Udp), Entry(host, Tcp)] else [Entry(host, Udp)]
      case Some(p) =>
        if p == "udp" then [Entry(host, Udp)] else if p == "tcp" && tcp then [Entry(host, Tcp)] else []
  }

  // ---------- entries read back ----------

  predicate IsLower(s: string) { forall i :: 0 <= i < |s| ==> LowerChar(s[i]) == s[i] }

  /** A host part as expansion produces it: lower case and free of `?`. */
  predicate HostOk(h: string) { IsLower(h) && '?' !in h }

  lemma LowerNoop(s: string)
    requires IsLower(s)
    ensures Lower(s) == s
  {
    hide Lower;
  }

  /** The host of any URL is fit for an entry. */
  lemma HostsOk(url: string, p: string)
    requires p != []
    ensures HostOk(StripAll(BaseOf(Normalize(url)), p))
  {
    hide Lower, Find, StripAll, Trim;
    var n := Normalize(url);
    var base := BaseOf(n);
    var h := StripAll(base, p);
    var d := |base| - |h|;
    forall i | 0 <= i < |h| ensures h[i] == n[d + i] && h[i] != '?' {
      assert h[i] == base[d + i] && base[d + i] in base;
    }
  }

  const KEY: string := "transport"

  /** A query that is just `transport=v`. */
  lemma ParamValue(v: string)
    requires '&' !in v
    ensures TransportParam(KEY + "=" + v) == Some(v)
  {
    hide Find;
    var q := KEY + "=" + v;
    assert |KEY| == 9 && '&' !in KEY && '=' !in KEY;
    assert q[..|q|] == q && '&' !in q;
    FindIs(q, '&', |q|);
    assert q[9] == '=' && q[..9] == KEY && q[10..] == v;
    FindIs(q, '=', 9);
  }

  predicate IsTransport(kv: string) { |kv| >= 10 && kv[..10] == "transport=" }

  /** The parameter taken is the value of the first part, between ampersands, whose key is `transport`. */
  lemma ParamIsFirst(kv: string, rest: string)
    requires '&' !in kv
    ensures TransportParam(kv + "&" + rest) == if IsTransport(kv) then Some(kv[10..]) else TransportParam(rest)
    ensures TransportParam(kv) == if IsTransport(kv) then Some(kv[10..]) else None
  {
    hide Find;
    var q := kv + "&" + rest;
    assert kv[..|kv|] == kv;
    FindIs(kv, '&', |kv|);
    assert q[..|kv|] == kv && q[|kv|] == '&' && q[|kv| + 1..] == rest;
    FindIs(q, '&', |kv|);
    KeyIs(kv);
  }

  lemma KeyIs(kv: string)
    ensures var eq := Find(kv, '=');
            && (eq < |kv| && kv[..eq] == "transport" <==> IsTransport(kv))
            && (IsTransport(kv) ==> eq == 9)
  {
    hide Find;
    var k := "transport=";
    assert k == "transport" + "=" && |k| == 10 && k[9] == '=' && '=' !in "transport" && k[..9] == "transport";
    var eq := Find(kv, '=');
    if IsTransport(kv) {
      assert kv[9] == kv[..10][9] == '=' && kv[..9] == kv[..10][..9] == "transport";
      FindIs(kv, '=', 9);
    }
    if eq < |kv| && kv[..eq] == "transport" {
      assert eq == 9 && kv[..10] == kv[..9] + [kv[9]];
    }
  }

  /** The transport a URL asks for: TLS runs over TCP only, plain TURN over UDP unless it says TCP, and
      anything else is not understood. */
  lemma TransportMeans(url: string)
    ensures var n := Normalize(url);
            var tls, plain := "turns:" <= BaseOf(n), "turn:" <= BaseOf(n);
            && (TransportOf(url) == Some(Udp) <==> !tls && plain && ParamOf(n) in {None, Some("udp")})
            && (TransportOf(url) == Some(Tcp) <==>
                  (tls && ParamOf(n) in {None, Some("tcp")}) || (!tls && plain && ParamOf(n) == Some("tcp")))
  {
    hide Normalize, BaseOf, ParamOf;
    assert "udp"[0] != "tcp"[0];
  }

  /** White space around a URL and the case of its letters make no difference. */
  lemma SpellingIgnored(a: string, url: string, b: string)
    requires AllSpace(a) && AllSpace(b)
    ensures Normalize(a + url + b) == Normalize(url)
    ensures Normalize(Normalize(url)) == Normalize(url)
  {
    hide Lower, Trim, IsSpace;
    PaddingIgnored(a, url, b);
    var t := Trim(url);
    var i, j := TrimExact(url);
    LowerTwice(t);
    if t != [] {
      LowerKeepsSpace(t);
      TrimNoop(Lower(t));
    } else {
      assert Lower(t) == [];
      TrimNothing();
    }
  }

  lemma TrimNothing()
    ensures Trim([]) == []
  {
  }

  lemma LowerTwice(s: string)
    ensures Lower(Lower(s)) == Lower(s)
  {
    hide Lower;
  }

  lemma LowerKeepsSpace(s: string)
    ensures forall i :: 0 <= i < |s| ==> (IsSpace(Lower(s)[i]) <==> IsSpace(s[i]))
  {
    hide Lower;
  }

  /** Which URLs are supported: those over UDP, and those over TCP when it is enabled. */
  lemma SupportedMeans(url: string, tcp: bool)
    ensures Supported(url, tcp) <==> TransportOf(url) == Some(Udp) || (TransportOf(url) == Some(Tcp) && tcp)
  {
    hide TransportOf;
    var t := TransportOf(url);
    if t.Some? { assert t.value == Udp || t.value == Tcp; }
  }

  lemma EntryExample()
    ensures Entry("h:1", Udp) == "turn:h:1?transport=udp" && Entry("h:1", Tcp) == "turn:h:1?transport=tcp"
  {
  }

  function Name(t: Transport): string { if t == Udp then "udp" else "tcp" }

  function Entry(host: string, t: Transport): string { "turn:" + host + "?" + (KEY + "=" + Name(t)) }

  lemma NamesPlain(t: Transport)
    ensures |Name(t)| == 3 && IsLower(Name(t)) && '&' !in Name(t) && '?' !in Name(t) && Name(t)[2] == 'p'
    ensures |KEY| == 9 && IsLower(KEY) && IsLower("turn:") && '?' !in "turn:"
  {
    assert Name(t) == ['u', 'd', 'p'] || Name(t) == ['t', 'c', 'p'];
  }

  lemma LowerConcat(a: string, b: string)
    requires IsLower(a) && IsLower(b)
    ensures IsLower(a + b)
  {
  }

  lemma EntryLower(h: string, t: Transport)
    requires HostOk(h)
    ensures IsLower(Entry(h, t))
  {
    hide IsLower;
    NamesPlain(t);
    assert IsLower("?") && IsLower("=") by { Marks(); }
    LowerConcat("turn:", h);
    LowerConcat("turn:" + h, "?");
    LowerConcat(KEY, "=");
    LowerConcat(KEY + "=", Name(t));
    LowerConcat("turn:" + h + "?", KEY + "=" + Name(t));
  }

  lemma Marks()
    ensures IsLower("?") && IsLower("=")
  {
  }

  lemma EntryNormal(h: string, t: Transport)
    requires HostOk(h)
    ensures Normalize(Entry(h, t)) == Entry(h, t)
    ensures BaseOf(Entry(h, t)) == "turn:" + h && ParamOf(Entry(h, t)) == Some(Name(t))
  {
    hide TransportParam, Find, Lower, Trim, Name, IsLower;
    NamesPlain(t);
    var e, b := Entry(h, t), "turn:" + h;
    assert e == b + "?" + (KEY + "=" + Name(t));
    assert e[0] == 't' && e[|e| - 1] == 'p';
    TrimNoop(e);
    EntryLower(h, t);
    LowerNoop(e);
    assert e[..|b|] == b && e[|b|] == '?' && e[|b| + 1..] == KEY + "=" + Name(t);
    assert '?' !in b;
    FindIs(e, '?', |b|);
    ParamValue(Name(t));
  }

  /** Every entry reads back as the transport it was written for. */
  lemma EntryReadsBack(h: string, t: Transport)
    requires HostOk(h)
    ensures TransportOf(Entry(h, t)) == Some(t)
  {
    hide Normalize, BaseOf, ParamOf;
    EntryNormal(h, t);
    assert !("turns:" <= "turn:" + h) by { assert ("turn:" + h)[4] == ':'; }
    assert "turn:" <= "turn:" + h;
  }

  /** The server part of a URL, without its scheme. */
  function HostOf(url: string): string {
    var base := BaseOf(Normalize(url));
    StripAll(base, if "turns:" <= base then "turns:" else "turn:")
  }

  /** The transports a URL leaves open: TLS runs over TCP and cannot be asked for over UDP; plain TURN
      without a transport parameter leaves both. */
  predicate Offers(url: string, t: Transport) {
    var base, param := BaseOf(Normalize(url)), ParamOf(Normalize(url));
    if "turns:" <= base then t == Tcp && param != Some("udp")
    else "turn:" <= base && (param == None || param == Some(Name(t)))
  }

  /** Expansion lists, for the URL's own host, exactly the transports the URL leaves open, TCP only when
      it is enabled; and each entry reads back as the transport it stands for. */
  lemma ExpandExact(url: string, tcp: bool)
    ensures HostOk(HostOf(url))
    ensures forall e :: e in Expand(url, tcp) <==>
              exists t :: e == Entry(HostOf(url), t) && Offers(url, t) && (t == Tcp ==> tcp)
    ensures forall t :: TransportOf(Entry(HostOf(url), t)) == Some(t)
    ensures |Expand(url, tcp)| <= 1 || Expand(url, tcp) == [Entry(HostOf(url), Udp), Entry(HostOf(url), Tcp)]
  {
    hide TransportOf, HostOk, StripAll, BaseOf, ParamOf, Normalize, Entry;
    var base := BaseOf(Normalize(url));
    HostsOk(url, if "turns:" <= base then "turns:" else "turn:");
    forall t ensures TransportOf(Entry(HostOf(url), t)) == Some(t) { EntryReadsBack(HostOf(url), t); }
    NamesDiffer();
  }

  lemma NamesDiffer()
    ensures Name(Udp) == "udp" && Name(Tcp) == "tcp" && "udp" != "tcp"
  {
    assert "udp"[0] != "tcp"[0];
  }

  /** A supported URL expands to an entry of its own transport. */
  lemma SupportedExpands(url: string, tcp: bool)
    requires Supported(url, tcp)
    ensures exists e :: e in Expand(url, tcp) && TransportOf(e) == TransportOf(url)
  {
    hide Entry, HostOk, HostOf, BaseOf, ParamOf, Normalize, Expand;
    ExpandExact(url, tcp);
    NamesDiffer();
    var t := TransportOf(url).value;
    assert Offers(url, t);
    assert Entry(HostOf(url), t) in Expand(url, tcp);
  }

  /** Expanding an entry again gives just that entry, exactly when its host part does not itself begin
      with `turn:` (which only a `turns:` URL can leave behind). */
  lemma ExpandStable(h: string, t: Transport, tcp: bool)
    requires HostOk(h) && (t == Tcp ==> tcp)
    ensures Expand(Entry(h, t), tcp) == [Entry(h, t)] <==> !("turn:" <= h)
  {
    hide Normalize, BaseOf, ParamOf;
    EntryNormal(h, t);
    var base := "turn:" + h;
    assert base[4] == ':' && !("turns:" <= base) && "turn:" <= base && base[5..] == h;
    var s := StripAll(base, "turn:");
    assert s == StripAll(h, "turn:");
    if "turn:" <= h { assert |s| <= |h| - 5; assert |Entry(s, t)| < |Entry(h, t)|; }
  }

  // ---------- the list handed to the ICE agent ----------

  predicate Distinct(s: seq<string>) { forall i, j :: 0 <= i < j < |s| ==> s[i] != s[j] }

  /** The URL, as given, asks for TURN over TLS. */
  predicate TlsOrigin(raw: string) { "turns:" <= Normalize(raw) }

  /** An entry comes from one of the URLs; with `tlsOnly`, from a `turns:` one. */
  ghost predicate Comes(urls: seq<string>, tcp: bool, tlsOnly: bool, e: string) {
    exists u :: u in urls && e in Expand(u, tcp) && (tlsOnly ==> TlsOrigin(u))
  }

  /** A prefix without `?` is a prefix of the URL exactly when it is one of its base. */
  lemma OriginOfBase(raw: string)
    ensures TlsOrigin(raw) <==> "turns:" <= BaseOf(Normalize(raw))
  {
    hide Find, Normalize;
    var n := Normalize(raw);
    var q := Find(n, '?');
    var p := "turns:";
    assert p[0] == 't' && p[1] == 'u' && p[2] == 'r' && p[3] == 'n' && p[4] == 's' && p[5] == ':';
  }

  /** What a `turns:` URL expands to is always TCP. */
  lemma TlsExpandsTcp(raw: string, tcp: bool, e: string)
    requires TlsOrigin(raw) && e in Expand(raw, tcp)
    ensures TransportOf(e) == Some(Tcp)
  {
    hide Entry, TransportOf, HostOk, StripAll, BaseOf, ParamOf, Normalize, TlsOrigin;
    OriginOfBase(raw);
    HostsOk(raw, "turns:");
    EntryReadsBack(StripAll(BaseOf(Normalize(raw)), "turns:"), Tcp);
  }

  datatype Candidate = Candidate(url: string, tls: bool)

  /** The expansions of all URLs, in order. */
  function Listed(urls: seq<string>, tcp: bool, tlsOnly: bool): seq<string> {
    if urls == [] then []
    else
      var u := urls[|urls| - 1];
      Listed(urls[..|urls| - 1], tcp, tlsOnly) + if tlsOnly && !TlsOrigin(u) then [] else Expand(u, tcp)
  }

  function Urls(all: seq<Candidate>, tlsOnly: bool): seq<string> {
    if all == [] then []
    else
      var c := all[|all| - 1];
      Urls(all[..|all| - 1], tlsOnly) + if tlsOnly && !c.tls then [] else [c.url]
  }

  lemma UrlsAppend(all: seq<Candidate>, c: Candidate, tlsOnly: bool)
    ensures Urls(all + [c], tlsOnly) == Urls(all, tlsOnly) + if tlsOnly && !c.tls then [] else [c.url]
  {
    assert (all + [c])[..|all|] == all;
  }

  lemma ListedAppend(urls: seq<string>, u: string, tcp: bool, tlsOnly: bool)
    ensures Listed(urls + [u], tcp, tlsOnly) ==
            Listed(urls, tcp, tlsOnly) + if tlsOnly && !TlsOrigin(u) then [] else Expand(u, tcp)
  {
    hide Expand, TlsOrigin;
    assert (urls + [u])[..|urls|] == urls;
  }

  /** Each entry where it first occurs. */
  function Unique(s: seq<string>): seq<string> {
    if s == [] then []
    else
      var init := Unique(s[..|s| - 1]);
      if s[|s| - 1] in init then init else init + [s[|s| - 1]]
  }

  lemma UniqueAppend(s: seq<string>, x: string)
    ensures Unique(s + [x]) == if x in Unique(s) then Unique(s) else Unique(s) + [x]
  {
    assert (s + [x])[..|s|] == s;
  }

  /** Where an entry first occurs, or the length. */
  function FirstAt(s: seq<string>, x: string): nat {
    if s == [] then 0
    else
      var k := FirstAt(s[..|s| - 1], x);
      if k < |s| - 1 || s[|s| - 1] == x then k else |s|
  }

  lemma {:induction false} FirstAtIs(s: seq<string>, x: string)
    ensures FirstAt(s, x) <= |s| && x !in s[..FirstAt(s, x)] && (FirstAt(s, x) < |s| <==> x in s)
    ensures FirstAt(s, x) < |s| ==> s[FirstAt(s, x)] == x
  {
    if s != [] {
      var n := |s| - 1;
      FirstAtIs(s[..n], x);
      assert s == s[..n] + [s[n]];
      var k := FirstAt(s[..n], x);
      assert k <= n && s[..n][..k] == s[..k];
    }
  }

  /** Duplicates are dropped in favour of the first: the entries kept are all there are, in the order in which
      they first come up. */
  lemma {:induction false} UniqueMeans(s: seq<string>)
    ensures forall x :: x in Unique(s) <==> x in s
    ensures forall i, j :: 0 <= i < j < |Unique(s)| ==> FirstAt(s, Unique(s)[i]) < FirstAt(s, Unique(s)[j])
  {
    if s != [] {
      hide FirstAt;
      var n := |s| - 1;
      var init, x := s[..n], s[n];
      UniqueMeans(init);
      assert s == init + [x];
      var u := Unique(s);
      forall y | y in init ensures FirstAt(s, y) == FirstAt(init, y) < n { FirstStays(s, y); }
      FirstStays(s, x);
      forall i, j | 0 <= i < j < |u| ensures FirstAt(s, u[i]) < FirstAt(s, u[j]) {
        assert u[i] in init;
        if j < |Unique(init)| { assert u[j] in init; }
      }
    }
  }

  lemma FirstStays(s: seq<string>, y: string)
    requires s != []
    ensures var n := |s| - 1;
            && (y in s[..n] ==> FirstAt(s, y) == FirstAt(s[..n], y) < n)
            && (y !in s[..n] && y == s[n] ==> FirstAt(s, y) == n)
  {
    FirstAtIs(s[..|s| - 1], y);
  }

  lemma NothingListed(tcp: bool)
    ensures Unique([]) == [] && Collected([], tcp) == [] && forall tls :: Urls([], tls) == [] && Marked([], tls) == []
  {
  }

  function Marked(es: seq<string>, tls: bool): seq<Candidate> {
    if es == [] then [] else Marked(es[..|es| - 1], tls) + [Candidate(es[|es| - 1], tls)]
  }

  function Collected(urls: seq<string>, tcp: bool): seq<Candidate> {
    if urls == [] then []
    else
      var u := urls[|urls| - 1];
      Collected(urls[..|urls| - 1], tcp) + Marked(Expand(u, tcp), TlsOrigin(u))
  }

  lemma {:induction false} UrlsMarked(all: seq<Candidate>, es: seq<string>, tls: bool, tlsOnly: bool)
    ensures Urls(all + Marked(es, tls), tlsOnly) == Urls(all, tlsOnly) + if tlsOnly && !tls then [] else es
    decreases |es|
  {
    hide Urls;
    if es == [] { assert all + [] == all; }
    else {
      var n := |es| - 1;
      UrlsMarked(all, es[..n], tls, tlsOnly);
      assert all + Marked(es, tls) == all + Marked(es[..n], tls) + [Candidate(es[n], tls)];
      UrlsAppend(all + Marked(es[..n], tls), Candidate(es[n], tls), tlsOnly);
    }
  }

  lemma {:induction false} CollectedUrls(urls: seq<string>, tcp: bool, tlsOnly: bool)
    ensures Urls(Collected(urls, tcp), tlsOnly) == Listed(urls, tcp, tlsOnly)
  {
    hide Expand, TlsOrigin;
    if urls != [] {
      hide Urls, Marked;
      var n := |urls| - 1;
      CollectedUrls(urls[..n], tcp, tlsOnly);
      UrlsMarked(Collected(urls[..n], tcp), Expand(urls[n], tcp), TlsOrigin(urls[n]), tlsOnly);
    }
  }

  lemma {:induction false} MarkedMembers(es: seq<string>, tls: bool)
    ensures forall c :: c in Marked(es, tls) <==> c.url in es && c.tls == tls
  {
    if es != [] { MarkedMembers(es[..|es| - 1], tls); }
  }

  lemma {:induction false} CollectedMembers(urls: seq<string>, tcp: bool)
    ensures forall c :: c in Collected(urls, tcp) <==>
              exists u :: u in urls && c.url in Expand(u, tcp) && c.tls == TlsOrigin(u)
  {
    hide Expand, TlsOrigin;
    if urls != [] {
      hide Marked;
      var n := |urls| - 1;
      CollectedMembers(urls[..n], tcp);
      MarkedMembers(Expand(urls[n], tcp), TlsOrigin(urls[n]));
      assert urls == urls[..n] + [urls[n]];
    }
  }

  lemma ComesIff(urls: seq<string>, tcp: bool, tlsOnly: bool, e: string)
    ensures (exists c :: c in Collected(urls, tcp) && c.url == e && (tlsOnly ==> c.tls)) <==>
              Comes(urls, tcp, tlsOnly, e)
  {
    hide Expand, TlsOrigin, Collected;
    CollectedMembers(urls, tcp);
    if Comes(urls, tcp, tlsOnly, e) {
      var u :| u in urls && e in Expand(u, tcp) && (tlsOnly ==> TlsOrigin(u));
      var c := Candidate(e, TlsOrigin(u));
      assert c in Collected(urls, tcp) && c.url == e && (tlsOnly ==> c.tls);
    }
  }

  method CollectCandidates(urls: seq<string>, tcp: bool) returns (all: seq<Candidate>)
    ensures all == Collected(urls, tcp)
  {
    hide Expand, TlsOrigin, TransportOf, Marked;
    all := [];
    var i := 0;
    while i < |urls|
      invariant 0 <= i <= |urls| && all == Collected(urls[..i], tcp)
    {
      assert urls[..i + 1][..i] == urls[..i];
      all := AddExpanded(all, urls[i], tcp);
      i := i + 1;
    }
    assert urls[..|urls|] == urls;
  }

  method AddExpanded(all: seq<Candidate>, raw: string, tcp: bool) returns (more: seq<Candidate>)
    ensures more == all + Marked(Expand(raw, tcp), TlsOrigin(raw))
  {
    hide Expand, TlsOrigin, TransportOf;
    var turnsOrigin := TlsOrigin(raw);
    var expanded := Expand(raw, tcp);
    more := all;
    var j := 0;
    while j < |expanded|
      invariant 0 <= j <= |expanded| && more == all + Marked(expanded[..j], turnsOrigin)
    {
      var tls := turnsOrigin && TransportOf(expanded[j]) == Some(Tcp);
      if turnsOrigin { TlsExpandsTcp(raw, tcp, expanded[j]); }
      assert expanded[..j + 1][..j] == expanded[..j];
      more := more + [Candidate(expanded[j], tls)];
      j := j + 1;
    }
    assert expanded[..|expanded|] == expanded;
  }

  method Dedup(all: seq<Candidate>, tlsOnly: bool) returns (out: seq<string>)
    ensures Distinct(out)
    ensures forall e :: e in out <==> exists c :: c in all && c.url == e && (tlsOnly ==> c.tls)
    ensures out == Unique(Urls(all, tlsOnly))
  {
    hide Unique, Urls;
    out := [];
    NothingListed(false);
    var i := 0;
    while i < |all|
      invariant 0 <= i <= |all| && Distinct(out)
      invariant forall e :: e in out <==> exists c :: c in all[..i] && c.url == e && (tlsOnly ==> c.tls)
      invariant out == Unique(Urls(all[..i], tlsOnly))
    {
      var c := all[i];
      assert all[..i + 1] == all[..i] + [c];
      UrlsAppend(all[..i], c, tlsOnly);
      UniqueAppend(Urls(all[..i], tlsOnly), c.url);
      assert Urls(all[..i], tlsOnly) + [] == Urls(all[..i], tlsOnly);
      if (!tlsOnly || c.tls) && c.url !in out { out := out + [c.url]; }
      i := i + 1;
    }
    assert all[..|all|] == all;
  }

  /** The filtered list is duplicate-free and holds exactly the expansions of the given URLs; or, when
      only TLS is wanted and there is any, exactly those of the `turns:` URLs; in the order in which they
      first come up. */
  method FilterSupportedTurnUrls(urls: seq<string>, tcpEnabled: bool, tlsFlag: bool) returns (out: seq<string>)
    ensures Distinct(out)
    ensures var tls := tcpEnabled && tlsFlag && exists e :: Comes(urls, tcpEnabled, true, e);
            && (forall e :: e in out <==> Comes(urls, tcpEnabled, tls, e))
            && out == Unique(Listed(urls, tcpEnabled, tls))
  {
    hide Expand, TlsOrigin, Collected, Listed, Urls, Unique;
    var tlsOnly := tcpEnabled && tlsFlag;
    var all := CollectCandidates(urls, tcpEnabled);
    CollectedUrls(urls, tcpEnabled, true);
    CollectedUrls(urls, tcpEnabled, false);
    ghost var tlsAny := exists e :: Comes(urls, tcpEnabled, true, e);
    if tlsOnly {
      out := Dedup(all, true);
      forall e ensures e in out <==> Comes(urls, tcpEnabled, true, e) { ComesIff(urls, tcpEnabled, true, e); }
      if out != [] {
        assert out[0] in out;
        return;
      }
    }
    out := Dedup(all, false);
    forall e ensures e in out <==> Comes(urls, tcpEnabled, false, e) { ComesIff(urls, tcpEnabled, false, e); }
  }

  /** Every entry of a filtered list parses, and as TCP only when TCP is enabled. */
  lemma FilteredParses(urls: seq<string>, tcp: bool, tls: bool, out: seq<string>)
    requires forall e :: e in out <==> Comes(urls, tcp, tls, e)
    ensures forall e :: e in out ==> TransportOf(e).Some? && (TransportOf(e) == Some(Tcp) ==> tcp)
    ensures tls ==> forall e :: e in out ==> TransportOf(e) == Some(Tcp)
  {
    hide Expand, TransportOf, TlsOrigin;
    forall e | e in out
      ensures TransportOf(e).Some? && (TransportOf(e) == Some(Tcp) ==> tcp) && (tls ==> TransportOf(e) == Some(Tcp))
    {
      var u :| u in urls && e in Expand(u, tcp) && (tls ==> TlsOrigin(u));
      ExpandExact(u, tcp);
      if tls { TlsExpandsTcp(u, tcp, e); }
    }
  }

  /** Unless only TLS entries were selected, every supported URL is represented with its transport. */
  lemma SupportedRepresented(urls: seq<string>, tcp: bool, out: seq<string>, u: string)
    requires forall e :: e in out <==> Comes(urls, tcp, false, e)
    requires u in urls && Supported(u, tcp)
    ensures exists e :: e in out && e in Expand(u, tcp) && TransportOf(e) == TransportOf(u)
  {
    hide Expand, TransportOf, TlsOrigin;
    SupportedExpands(u, tcp);
    var e :| e in Expand(u, tcp) && TransportOf(e) == TransportOf(u);
    assert Comes(urls, tcp, false, e);
  }

  // ---------- network types ----------

  datatype NetworkType = Udp4 | Udp6 | Tcp4 | Tcp6

  /** The ICE agent gathers TCP candidates exactly when TCP is enabled and some server URL needs it. */
  method IceNetworkTypes(urls: seq<string>, tcpEnabled: bool, ipv6: bool) returns (out: seq<NetworkType>)
    ensures var tcp := tcpEnabled && exists u :: u in urls && TransportOf(u) == Some(Tcp);
            && (Tcp4 in out <==> tcp) && (Tcp6 in out <==> tcp && ipv6)
            && Udp4 in out && (Udp6 in out <==> ipv6)
            && (forall i, j :: 0 <= i < j < |out| ==> out[i] != out[j])
            && out == [Udp4] + (if ipv6 then [Udp6] else []) + (if tcp then [Tcp4] else [])
                      + if tcp && ipv6 then [Tcp6] else []
  {
    hide TransportOf;
    var needsTcp := false;
    if tcpEnabled {
      var i := 0;
      while i < |urls|
        invariant 0 <= i <= |urls|
        invariant needsTcp <==> exists u :: u in urls[..i] && TransportOf(u) == Some(Tcp)
      {
        assert urls[..i + 1] == urls[..i] + [urls[i]];
        if TransportOf(urls[i]) == Some(Tcp) { needsTcp := true; }
        i := i + 1;
      }
      assert urls[..|urls|] == urls;
    }
    out := [Udp4];
    if ipv6 { out := out + [Udp6]; }
    if needsTcp {
      out := out + [Tcp4];
      if ipv6 { out := out + [Tcp6]; }
    }
  }
}
