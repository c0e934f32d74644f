/** parse.go: the proxy-string normaliser, and the split singleProxyCheck makes
    of its result. dns.IsDomainName and netip.ParseAddrPort are parameters. */
module Parse {
  import opened Proto
  import opened Text

  /** The two library tests; `parse` yields the canonical text of an address and port. */
  datatype Resolver = Resolver(isDomain: string -> bool, parse: string -> Option<string>)

  /** An index out of range, or (filtered, ok). */
  datatype Filtered = Panic | Answer(text: string, ok: bool)

  // ---------------------------------------------------------------- isNumber

  predicate Digits(s: string) {
    s != "" && forall i :: 0 <= i < |s| ==> '0' <= s[i] <= '9'
  }

  function ValueOf(s: string): nat
    requires forall i :: 0 <= i < |s| ==> '0' <= s[i] <= '9'
  {
    if s == "" then 0 else 10 * ValueOf(s[..|s| - 1]) + (s[|s| - 1] - '0') as int
  }

  /** strconv.Atoi succeeds: an optional sign, digits, and a value of 64 bits. */
  predicate IsNumber(s: string) {
    if s != "" && s[0] == '-' then Digits(s[1..]) && ValueOf(s[1..]) <= 0x8000_0000_0000_0000
    else if s != "" && s[0] == '+' then Digits(s[1..]) && ValueOf(s[1..]) < 0x8000_0000_0000_0000
    else Digits(s) && ValueOf(s) < 0x8000_0000_0000_0000
  }

  // ---------------------------------------------------------------- buildProxyString

  function Build(username: string, password: string, address: string, port: string, v6: bool): string {
    (if username != "" && password != "" then username + ":" + password + "@" else "")
    + address + (if v6 then "]" else "") + ":" + port
  }

  /** The canonical text: credentials only if there are both, the closing bracket of an IPv6 address. */
  lemma BuildText(u: string, w: string, h: string, p: string)
    ensures u != "" && w != "" ==> Build(u, w, h, p, false) == u + ":" + w + "@" + h + ":" + p
    ensures u != "" && w != "" ==> Build(u, w, h, p, true) == u + ":" + w + "@" + h + "]:" + p
    ensures u == "" || w == "" ==> Build(u, w, h, p, false) == h + ":" + p
    ensures u == "" || w == "" ==> Build(u, w, h, p, true) == h + "]:" + p
  {
    assert "]" + ":" == "]:";
    assert h + "]" + ":" == h + "]:";
    assert u + ":" + w + "@" + h + "]" + ":" + p == u + ":" + w + "@" + h + "]:" + p;
  }

  method BuildProxyString(username: string, password: string, address: string, port: string, v6: bool)
    returns (result: string)
    ensures result == Build(username, password, address, port, v6)
    ensures username != "" && password != "" && !v6 ==>
              result == username + ":" + password + "@" + address + ":" + port
    ensures username != "" && password != "" && v6 ==>
              result == username + ":" + password + "@" + address + "]:" + port
    ensures (username == "" || password == "") && !v6 ==> result == address + ":" + port
    ensures (username == "" || password == "") && v6 ==> result == address + "]:" + port
  {
    var builder := "";
    BuildText(username, password, address, port);
    if username != "" && password != "" {
      builder := builder + username;
      builder := builder + ":";
      builder := builder + password;
      builder := builder + "@";
    }
    builder := builder + address;
    if v6 {
      builder := builder + "]";
    }
    builder := builder + ":";
    builder := builder + port;
    result := builder;
  }

  // ---------------------------------------------------------------- filter

  function FilterV6(r: Resolver, text: string): Filtered {
    var split := Split(text, "]:");
    if |split| < 2 then Answer("", false)
    else
      var split2 := Split(split[1], ":");
      var parsed := r.parse(Build("", "", split[0], split2[0], true));
      if parsed == None then Answer("", true)
      else if |split2| == 1 then Answer(parsed.value, true)
      else if |split2| == 2 then Panic
      else Answer(Build(split2[1], split2[2], split[0], split2[0], true), true)
  }

  function Filter2(r: Resolver, text: string, split: seq<string>): Filtered
    requires |split| == 2
  {
    if r.isDomain(split[0]) && IsNumber(split[1]) then Answer(text, true)
    else
      match r.parse(text)
      case None => Answer("", false)
      case Some(combo) => Answer(combo, true)
  }

  function Filter3(r: Resolver, text: string): Filtered {
    if '@' !in text then Answer("", false)
    else
      var split := Split(text, "@");
      if ':' !in split[0] then Answer("", false)
      else if |split| < 2 then Panic
      else
        var auth := Split(split[0], ":");
        var serv := Split(split[1], ":");
        if r.isDomain(serv[0]) && |serv| < 2 then Panic
        else if (r.isDomain(serv[0]) && IsNumber(serv[1])) || r.parse(split[1]).Some? then
          if |auth| < 2 || |serv| < 2 then Panic
          else Answer(Build(auth[0], auth[1], serv[0], serv[1], false), true)
        else FilterV6(r, text)
  }

  function Filter4(r: Resolver, text: string, split: seq<string>): Filtered
    requires |split| == 4
  {
    var hostFirst := Answer(Build(split[2], split[3], split[0], split[1], false), true);
    var hostLast := Answer(Build(split[0], split[1], split[2], split[3], false), true);
    if r.isDomain(split[0]) && IsNumber(split[1]) then hostFirst
    else if r.isDomain(split[2]) && IsNumber(split[3]) then hostLast
    else if r.parse(split[2] + ":" + split[3]).Some? then hostLast
    else if r.parse(split[0] + ":" + split[1]).Some? then hostFirst
    else FilterV6(r, text)
  }

  /** Some "]:" occurs in the text. */
  predicate HasBracketColon(text: string) {
    !NoBracketColon(text)
  }

  function Filter(r: Resolver, text: string): Filtered {
    if ':' !in text then Answer("", false)
    else
      var split := Split(text, ":");
      if |split| < 2 then Answer("", false)
      else if |split| == 2 then Filter2(r, text, split)
      else if |split| == 3 then Filter3(r, text)
      else if |split| == 4 then Filter4(r, text, split)
      else if '[' !in text || !HasBracketColon(text) then Answer("", false)
      else FilterV6(r, text)
  }

  /** singleProxyCheck: what it dials. */
  function DialTarget(endpoint: string): string {
    var split := Split(endpoint, "@");
    if |split| == 2 then split[1] else split[0]
  }
}
