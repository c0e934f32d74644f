/** What the normaliser is for: many notations, one canonical string, from which
    the validator gets the host and port back. */
module ParseLaws {
  import opened Proto
  import opened Text
  import opened Parse

  predicate Plain(s: string) {
    Free(s, ':') && Free(s, '@')
  }

  /** Address and port accepted as a domain with a number. */
  predicate Serves(r: Resolver, host: string, port: string) {
    r.isDomain(host) && IsNumber(port)
  }

  predicate Addresses(r: Resolver, host: string, port: string) {
    r.parse(host + ":" + port).Some?
  }

  predicate Accepts(r: Resolver, host: string, port: string) {
    Serves(r, host, port) || Addresses(r, host, port)
  }

  function Canonical(h: string, p: string, u: string, w: string): string {
    if u != "" && w != "" then u + ":" + w + "@" + h + ":" + p else h + ":" + p
  }

  lemma BuildIsCanonical(h: string, p: string, u: string, w: string)
    ensures Build(u, w, h, p, false) == Canonical(h, p, u, w)
  {
    BuildText(u, w, h, p);
  }

  predicate AllPlain(h: string, p: string, u: string, w: string) {
    Plain(h) && Plain(p) && Plain(u) && Plain(w)
  }

  // ---------------------------------------------------------------- recovery

  lemma FreeConcat(a: string, b: string, c: char)
    requires Free(a, c) && Free(b, c)
    ensures Free(a + b, c)
  {
  }

  /** The `@` split recovers host and port from the canonical string, with or without credentials. */
  lemma DialTargetRecovered(h: string, p: string, u: string, w: string)
    requires AllPlain(h, p, u, w)
    ensures DialTarget(Canonical(h, p, u, w)) == h + ":" + p
  {
    var serv := h + ":" + p;
    FreeConcat(h, ":", '@');
    FreeConcat(h + ":", p, '@');
    if u != "" && w != "" {
      var auth := u + ":" + w;
      FreeConcat(u, ":", '@');
      FreeConcat(u + ":", w, '@');
      assert Canonical(h, p, u, w) == auth + ['@'] + serv;
      Split2(auth, '@', serv);
    } else {
      assert Canonical(h, p, u, w) == serv;
      SplitFree(serv, '@');
    }
  }

  /** With credentials the target is recovered iff no '@' is in them, or they happen to begin with the target itself. */
  lemma DialTargetIff(h: string, p: string, u: string, w: string)
    requires Plain(h) && Plain(p) && u != "" && w != ""
    ensures DialTarget(Canonical(h, p, u, w)) == h + ":" + p
       <==> Free(u + ":" + w, '@') || Split(u + ":" + w, "@")[0] == h + ":" + p
  {
    var serv := h + ":" + p;
    var auth := u + ":" + w;
    FreeConcat(h, ":", '@');
    FreeConcat(h + ":", p, '@');
    assert Canonical(h, p, u, w) == auth + ['@'] + serv;
    if Free(auth, '@') {
      Split2(auth, '@', serv);
    } else {
      SplitCount(auth + ['@'] + serv, '@');
      CountConcat(auth + ['@'], serv, '@');
      CountConcat(auth, ['@'], '@');
      CountFree(auth, '@');
      FirstField(auth, '@', serv);
    }
  }

  lemma {:induction false} FirstField(a: string, c: char, b: string)
    ensures Split(a + [c] + b, [c])[0] == Split(a, [c])[0]
    decreases |a|
  {
    var s := a + [c] + b;
    if a == "" {
      assert s == [c] + b && s[..1] == [c];
    } else {
      assert s[0] == a[0] && s[..1] == [a[0]] && a[..1] == [a[0]];
      assert s[1..] == a[1..] + [c] + b;
      FirstField(a[1..], c, b);
    }
  }

  lemma SameTarget(h: string, p: string, u: string, w: string)
    requires Free(h, ':') && Free(p, ':') && Free(u, ':') && Free(w, ':')
    requires h + ":" + p == u + ":" + w
    ensures h == u && p == w
  {
    Split2(h, ':', p);
    Split2(u, ':', w);
    assert [h, p][0] == [u, w][0] && [h, p][1] == [u, w][1];
  }

  /** Swapping the two halves gives another canonical string, unless they are the same. */
  lemma SwapDiffers(h: string, p: string, u: string, w: string)
    requires AllPlain(h, p, u, w)
    ensures Canonical(h, p, u, w) == Canonical(u, w, h, p) <==> h == u && p == w
  {
    DialTargetRecovered(h, p, u, w);
    DialTargetRecovered(u, w, h, p);
    if Canonical(h, p, u, w) == Canonical(u, w, h, p) {
      SameTarget(h, p, u, w);
    }
  }

  // ---------------------------------------------------------------- confluence

  lemma FourFields(r: Resolver, a: string, b: string, c: string, d: string)
    requires AllPlain(a, b, c, d)
    ensures var text := a + ":" + b + ":" + c + ":" + d;
            Filter(r, text)
            == if Serves(r, a, b) then Answer(Canonical(a, b, c, d), true)
               else if Accepts(r, c, d) then Answer(Canonical(c, d, a, b), true)
               else if Addresses(r, a, b) then Answer(Canonical(a, b, c, d), true)
               else FilterV6(r, text)
  {
    BuildIsCanonical(a, b, c, d);
    BuildIsCanonical(c, d, a, b);
    var text := a + ":" + b + ":" + c + ":" + d;
    assert text == a + [':'] + b + [':'] + c + [':'] + d;
    Split4(a, b, c, d, ':');
    assert text[|a|] == ':';
  }

  /** host:port:user:pass normalises to the canonical string exactly when the
      host is a domain, or user:pass cannot itself be taken for a server, or the two are the same. */
  lemma HostFirst(r: Resolver, h: string, p: string, u: string, w: string)
    requires AllPlain(h, p, u, w) && Accepts(r, h, p)
    ensures Filter(r, h + ":" + p + ":" + u + ":" + w) == Answer(Canonical(h, p, u, w), true)
       <==> Serves(r, h, p) || !Accepts(r, u, w) || (u == h && w == p)
  {
    FourFields(r, h, p, u, w);
    SwapDiffers(h, p, u, w);
  }

  /** user:pass:host:port does exactly when the user is no domain or the password no number, or the two are the same. */
  lemma HostLast(r: Resolver, h: string, p: string, u: string, w: string)
    requires AllPlain(h, p, u, w) && Accepts(r, h, p)
    ensures Filter(r, u + ":" + w + ":" + h + ":" + p) == Answer(Canonical(h, p, u, w), true)
       <==> !Serves(r, u, w) || (u == h && w == p)
  {
    FourFields(r, u, w, h, p);
    SwapDiffers(h, p, u, w);
  }

  lemma AuthorityBuilds(r: Resolver, h: string, p: string, u: string, w: string)
    requires AllPlain(h, p, u, w) && Accepts(r, h, p)
    ensures Filter(r, u + ":" + w + "@" + h + ":" + p) == Answer(Build(u, w, h, p, false), true)
  {
    var auth, serv := u + ":" + w, h + ":" + p;
    var text := u + ":" + w + "@" + h + ":" + p;
    assert text == auth + ['@'] + serv;
    FreeConcat(h, ":", '@');
    FreeConcat(h + ":", p, '@');
    FreeConcat(u, ":", '@');
    FreeConcat(u + ":", w, '@');
    Split2(auth, '@', serv);
    Split2(u, ':', w);
    Split2(h, ':', p);
    assert text == u + [':'] + (w + "@" + h) + [':'] + p;
    FreeConcat(w, "@", ':');
    FreeConcat(w + "@", h, ':');
    Split3(u, w + "@" + h, p, ':');
    assert text[|u|] == ':' && text[|auth|] == '@' && auth[|u|] == ':';
  }

  /** user:pass@host:port always does. */
  lemma AtSign(r: Resolver, h: string, p: string, u: string, w: string)
    requires AllPlain(h, p, u, w) && Accepts(r, h, p)
    ensures Filter(r, u + ":" + w + "@" + h + ":" + p) == Answer(Canonical(h, p, u, w), true)
  {
    AuthorityBuilds(r, h, p, u, w);
    BuildIsCanonical(h, p, u, w);
  }

  /** All three notations of a server that is a domain with a numeric port agree,
      unless the credentials themselves read as a domain and a number. */
  lemma NotationsAgree(r: Resolver, h: string, p: string, u: string, w: string)
    requires AllPlain(h, p, u, w) && Serves(r, h, p) && !Serves(r, u, w)
    ensures Filter(r, h + ":" + p + ":" + u + ":" + w) == Answer(Canonical(h, p, u, w), true)
    ensures Filter(r, u + ":" + w + ":" + h + ":" + p) == Answer(Canonical(h, p, u, w), true)
    ensures Filter(r, u + ":" + w + "@" + h + ":" + p) == Answer(Canonical(h, p, u, w), true)
  {
    HostFirst(r, h, p, u, w);
    HostLast(r, h, p, u, w);
    AtSign(r, h, p, u, w);
  }

  /** Normalising twice changes nothing, exactly unless the string has no
      credentials and is an address that netip writes differently. */
  lemma CanonicalIsFixed(r: Resolver, h: string, p: string, u: string, w: string)
    requires AllPlain(h, p, u, w) && Accepts(r, h, p)
    ensures Filter(r, Canonical(h, p, u, w)) == Answer(Canonical(h, p, u, w), true)
       <==> (u != "" && w != "") || Serves(r, h, p) || r.parse(h + ":" + p) == Some(h + ":" + p)
  {
    var serv := h + ":" + p;
    if u != "" && w != "" {
      assert Canonical(h, p, u, w) == u + ":" + w + "@" + h + ":" + p;
      AtSign(r, h, p, u, w);
    } else {
      assert Canonical(h, p, u, w) == serv;
      Split2(h, ':', p);
      assert serv[|h|] == ':';
    }
  }

  // ---------------------------------------------------------------- IPv6

  /** Enough colons to reach the default case, and a "]:" in the middle. */
  lemma ManyFields(front: string, tail: string)
    ensures |Split(front + "]:" + tail, ":")| == CountOf(front, ':') + CountOf(tail, ':') + 2
    ensures HasBracketColon(front + "]:" + tail) && ':' in front + "]:" + tail
  {
    var text := front + "]:" + tail;
    SplitCount(text, ':');
    CountConcat(front + "]:", tail, ':');
    CountConcat(front, "]:", ':');
    assert CountOf("]:", ':') == 1;
    assert text[|front|] == ']' && text[|front| + 1] == ':';
  }

  lemma CountJoined(a: string, b: string)
    ensures CountOf(a + ":" + b, ':') == CountOf(a, ':') + 1 + CountOf(b, ':')
  {
    CountConcat(a + ":", b, ':');
    CountConcat(a, ":", ':');
  }

  /** A text of five fields or more with brackets is left to filterv6(). */
  lemma BracketedFallsToV6(r: Resolver, front: string, tail: string)
    requires CountOf(front, ':') + CountOf(tail, ':') >= 3 && '[' in front
    requires NoBracketColon(front) && (front == "" || front[|front| - 1] != ']') && NoBracketColon(tail)
    ensures Filter(r, front + "]:" + tail) == FilterV6(r, front + "]:" + tail)
    ensures Split(front + "]:" + tail, "]:") == [front, tail]
  {
    ManyFields(front, tail);
    SplitAtBracket(front, tail);
    SplitNoBracket(tail);
    assert '[' in front + "]:" + tail;
  }

  /** The canonical text of an IPv6 address. */
  function Bracketed(a: string, p: string, u: string, w: string): string {
    if u != "" && w != "" then u + ":" + w + "@[" + a + "]:" + p else "[" + a + "]:" + p
  }

  lemma BuildIsBracketed(a: string, p: string, u: string, w: string)
    ensures Build(u, w, "[" + a, p, true) == Bracketed(a, p, u, w)
  {
    BuildText(u, w, "[" + a, p);
    assert u + ":" + w + "@" + ("[" + a) == u + ":" + w + "@[" + a;
  }

  predicate Bracketable(a: string) {
    CountOf(a, ':') >= 2 && NoBracketColon(a) && a != "" && a[|a| - 1] != ']'
  }

  /** What filterv6() makes of a port and credentials behind the bracket. */
  lemma PortAndCredentials(r: Resolver, text: string, front: string, p: string, u: string, w: string)
    requires Free(p, ':') && Free(u, ':') && Free(w, ':')
    requires Split(text, "]:") == [front, p + ":" + u + ":" + w]
    ensures FilterV6(r, text)
         == Answer(if r.parse(front + "]:" + p).Some? then Build(u, w, front, p, true) else "", true)
  {
    assert ":" == [':'];
    Split3(p, u, w, ':');
    BuildBare(front, p);
  }

  /** [address]:port:user:pass, for an address with at least two colons, is
      normalised to user:pass@[address]:port iff netip parses [address]:port. */
  lemma BracketedWithCredentials(r: Resolver, a: string, p: string, u: string, w: string)
    requires Bracketable(a) && Free(p, ':') && Free(u, ':') && Free(w, ':')
    requires NoBracketColon(p + ":" + u + ":" + w)
    ensures Filter(r, "[" + a + "]:" + (p + ":" + u + ":" + w))
         == Answer(if r.parse("[" + a + "]:" + p).Some? then Bracketed(a, p, u, w) else "", true)
  {
    BuildIsBracketed(a, p, u, w);
    var tail := p + ":" + u + ":" + w;
    var front := "[" + a;
    CountConcat("[", a, ':');
    CountJoined(p + ":" + u, w);
    assert front[|front| - 1] == a[|a| - 1] && front[0] == '[';
    BracketedFallsToV6(r, front, tail);
    PortAndCredentials(r, front + "]:" + tail, front, p, u, w);
  }

  /** The canonical IPv6 string with credentials is not a fixed point: unless
      netip itself parses the whole of it, it is accepted as the empty string. */
  lemma BracketedIsNotFixed(r: Resolver, a: string, p: string, u: string, w: string)
    requires Bracketable(a) && Free(p, ':') && u != "" && w != ""
    requires NoBracketColon(p) && NoBracketColon(u + ":" + w + "@[" + a)
    ensures var canonical := Bracketed(a, p, u, w);
            Filter(r, canonical) == Answer(if r.parse(canonical).Some? then r.parse(canonical).value else "", true)
  {
    var front := u + ":" + w + "@[" + a;
    CredentialsInFront(u, w, a);
    assert Bracketed(a, p, u, w) == front + "]:" + p;
    BareV6(r, front, p);
  }

  lemma PortAlone(r: Resolver, text: string, front: string, p: string)
    requires Split(text, "]:") == [front, p] && Free(p, ':') && text == front + "]:" + p
    ensures FilterV6(r, text) == Answer(if r.parse(text).Some? then r.parse(text).value else "", true)
  {
    SplitFree(p, ':');
    BuildBare(front, p);
  }

  lemma BuildBare(front: string, p: string)
    ensures Build("", "", front, p, true) == front + "]:" + p
  {
    Assoc(front, "]", ":");
    assert "" + front == front && "]" + ":" == "]:";
  }

  /** A text whose "]:" is followed by a port alone is accepted as netip writes it, or as the empty string. */
  lemma BareV6(r: Resolver, front: string, p: string)
    requires CountOf(front, ':') >= 3 && '[' in front && NoBracketColon(front) && front[|front| - 1] != ']'
    requires Free(p, ':') && NoBracketColon(p)
    ensures var text := front + "]:" + p;
            Filter(r, text) == Answer(if r.parse(text).Some? then r.parse(text).value else "", true)
  {
    BracketedFallsToV6(r, front, p);
    PortAlone(r, front + "]:" + p, front, p);
  }

  lemma CredentialsInFront(u: string, w: string, a: string)
    requires Bracketable(a)
    ensures var front := u + ":" + w + "@[" + a;
            CountOf(front, ':') >= 3 && '[' in front && front[|front| - 1] == a[|a| - 1]
  {
    var front := u + ":" + w + "@[" + a;
    assert front == u + ":" + (w + "@[" + a);
    CountJoined(u, w + "@[" + a);
    assert w + "@[" + a == (w + "@[") + a;
    CountConcat(w + "@[", a, ':');
    assert front[|u + ":" + w + "@"|] == '[';
  }

  /** A bracketed address with only two colons lands in the four-field branch,
      which takes its front for a user: "[::1]:80" becomes "1]:80". */
  lemma ShortBracketMisread(r: Resolver, z: string, p: string)
    requires Free(z, ':') && Free(p, ':') && Accepts(r, z + "]", p)
    ensures Filter(r, "[::" + z + "]:" + p) == Answer(z + "]:" + p, true)
  {
    var text := "[::" + z + "]:" + p;
    FreeConcat(z, "]", ':');
    assert text == "[" + [':'] + "" + [':'] + (z + "]") + [':'] + p;
    Split4("[", "", z + "]", p, ':');
    assert text[1] == ':';
    assert Build("[", "", z + "]", p, false) == z + "]:" + p;
  }

  // ---------------------------------------------------------------- index out of range

  predicate ShortAuthority(r: Resolver, text: string) {
    && CountOf(text, ':') == 2 && '@' in text
    && var at := Split(text, "@");
       |at| >= 2 && ':' in at[0] && ':' !in at[1] && (r.isDomain(at[1]) || r.parse(at[1]).Some?)
  }

  predicate ShortV6(r: Resolver, text: string) {
    var split := Split(text, "]:");
    && |split| >= 2
    && CountOf(split[1], ':') == 1
    && r.parse(split[0] + "]:" + Split(split[1], ":")[0]).Some?
  }

  /** No earlier branch of filter() answers for the text. */
  predicate FallsToV6(r: Resolver, text: string) {
    var split := Split(text, ":");
    if |split| == 3 then
      && '@' in text
      && var at := Split(text, "@");
         |at| >= 2 && ':' in at[0] && r.parse(at[1]).None?
         && var serv := Split(at[1], ":"); !(r.isDomain(serv[0]) && (|serv| < 2 || IsNumber(serv[1])))
    else if |split| == 4 then
      !Accepts(r, split[0], split[1]) && !Accepts(r, split[2], split[3])
    else |split| > 4 && '[' in text && HasBracketColon(text)
  }

  lemma AtSplits(text: string)
    ensures '@' in text <==> |Split(text, "@")| >= 2
  {
    SplitCount(text, '@');
    CountFree(text, '@');
    assert "@" == ['@'];
  }

  lemma ColonSplits(text: string)
    ensures ':' in text <==> |Split(text, ":")| >= 2
    ensures |Split(text, ":")| == CountOf(text, ':') + 1
  {
    SplitCount(text, ':');
    CountFree(text, ':');
    assert ":" == [':'];
  }

  lemma V6PanicsIff(r: Resolver, text: string)
    ensures FilterV6(r, text) == Panic <==> ShortV6(r, text)
  {
    var v6 := Split(text, "]:");
    if |v6| >= 2 {
      ColonSplits(v6[1]);
      var q := Split(v6[1], ":")[0];
      BuildBare(v6[0], q);
    }
  }

  lemma ThreeFieldsPanicIff(r: Resolver, text: string)
    requires |Split(text, ":")| == 3
    ensures Filter3(r, text) == Panic <==> ShortAuthority(r, text) || (FallsToV6(r, text) && ShortV6(r, text))
  {
    AtSplits(text);
    ColonSplits(text);
    V6PanicsIff(r, text);
    var at := Split(text, "@");
    ColonSplits(at[0]);
    if |at| >= 2 {
      ColonSplits(at[1]);
      if ':' !in at[1] {
        SplitFree(at[1], ':');
      }
    }
  }

  /** filter() indexes out of range iff a two-colon text names a server without a
      port behind its '@', or an IPv6 text carries one field after its port. */
  lemma PanicsIff(r: Resolver, text: string)
    ensures Filter(r, text) == Panic <==> ShortAuthority(r, text) || (FallsToV6(r, text) && ShortV6(r, text))
  {
    ColonSplits(text);
    V6PanicsIff(r, text);
    if |Split(text, ":")| == 3 {
      ThreeFieldsPanicIff(r, text);
    }
  }

  /** The one kind: three fields, and a server without a port behind the '@'. */
  lemma PortlessServer(r: Resolver, u: string, w: string, x: string, host: string)
    requires AllPlain(u, w, x, host) && r.isDomain(host)
    ensures Filter(r, u + ":" + w + ":" + x + "@" + host) == Panic
  {
    var auth := u + ":" + w + ":" + x;
    var text := auth + "@" + host;
    Assoc(u + ":" + w + ":", x, "@");
    Assoc(u + ":" + w + ":", x + "@", host);
    FreeConcat(x, "@", ':');
    FreeConcat(x + "@", host, ':');
    assert ":" == [':'] && "@" == ['@'];
    Split3(u, w, x + "@" + host, ':');
    FreeConcat(u, ":", '@');
    FreeConcat(u + ":", w, '@');
    FreeConcat(u + ":" + w, ":", '@');
    FreeConcat(u + ":" + w + ":", x, '@');
    Split2(auth, '@', host);
    SplitFree(host, ':');
    assert text[|u|] == ':' && text[|auth|] == '@' && auth[|u|] == ':';
  }

  /** An input of that kind. */
  lemma PortlessServerPanics(r: Resolver)
    requires r.isDomain("host")
    ensures Filter(r, "u:p:x@host") == Panic
  {
    PortlessServer(r, "u", "p", "x", "host");
    assert "u" + ":" + "p" + ":" + "x" + "@" + "host" == "u:p:x@host";
  }

  /** The other kind: a bracketed address with a user and no password. */
  lemma UserWithoutPassword(r: Resolver, a: string, p: string, u: string)
    requires Bracketable(a) && Free(p, ':') && Free(u, ':') && NoBracketColon(p + ":" + u)
    requires r.parse("[" + a + "]:" + p).Some?
    ensures Filter(r, "[" + a + "]:" + (p + ":" + u)) == Panic
  {
    var front, tail := "[" + a, p + ":" + u;
    CountConcat("[", a, ':');
    CountJoined(p, u);
    assert front[|front| - 1] == a[|a| - 1] && front[0] == '[';
    BracketedFallsToV6(r, front, tail);
    assert ":" == [':'];
    Split2(p, ':', u);
    BuildBare(front, p);
  }

  lemma ColonsOfLoopback()
    ensures CountOf("::1", ':') == 2
  {
    CountJoined("", ":1");
    CountJoined("", "1");
    CountFree("1", ':');
    assert "" + ":" + ":1" == "::1" && "" + ":" + "1" == ":1";
  }

  /** An input of that kind. */
  lemma UserWithoutPasswordPanics(r: Resolver)
    requires r.parse("[::1]:80").Some?
    ensures Filter(r, "[::1]:80:user") == Panic
  {
    ColonsOfLoopback();
    assert "[" + "::1" + "]:" + "80" == "[::1]:80";
    assert "[" + "::1" + "]:" + ("80" + ":" + "user") == "[::1]:80:user";
    UserWithoutPassword(r, "::1", "80", "user");
  }

  // ---------------------------------------------------------------- rejection

  /** host:port alone: kept if it is a domain with a number, else as netip writes it, else rejected. */
  lemma TwoFields(r: Resolver, h: string, p: string)
    requires Free(h, ':') && Free(p, ':')
    ensures Filter(r, h + ":" + p)
         == if Serves(r, h, p) then Answer(h + ":" + p, true)
            else match r.parse(h + ":" + p)
                 case Some(text) => Answer(text, true)
                 case None => Answer("", false)
  {
    Split2(h, ':', p);
    assert (h + ":" + p)[|h|] == ':' && ":" == [':'];
  }

  /** What filter() rejects: a text without a colon; two fields that are no
      server; three without an '@' or with no colon before it; five or more
      without brackets; and three or four that name no server and have no "]:" either. */
  predicate Refuses(r: Resolver, text: string) {
    var fields := Split(text, ":");
    match |fields|
    case 1 => true
    case 2 => !Accepts(r, fields[0], fields[1])
    case 3 => '@' !in text || ':' !in Split(text, "@")[0] || (FallsToV6(r, text) && NoBracketColon(text))
    case 4 => !Accepts(r, fields[0], fields[1]) && !Accepts(r, fields[2], fields[3]) && NoBracketColon(text)
    case _ => '[' !in text || NoBracketColon(text)
  }

  lemma {:induction false} BracketSplits(text: string)
    ensures |Split(text, "]:")| >= 2 <==> HasBracketColon(text)
    decreases |text|
  {
    if StartsWith(text, "]:") {
      assert text[0] == "]:"[0] && text[1] == "]:"[1] by {
        assert text[..2][0] == text[0] && text[..2][1] == text[1];
      }
    } else if text != "" {
      BracketSplits(text[1..]);
      TailHasBracket(text);
    }
  }

  lemma TailHasBracket(text: string)
    requires text != "" && !StartsWith(text, "]:")
    ensures HasBracketColon(text) <==> HasBracketColon(text[1..])
  {
    if HasBracketColon(text) {
      var i :| 0 <= i < |text| - 1 && text[i] == ']' && text[i + 1] == ':';
      if i > 0 {
        assert text[1..][i - 1] == ']' && text[1..][i] == ':';
      }
    }
    if HasBracketColon(text[1..]) {
      var i :| 0 <= i < |text[1..]| - 1 && text[1..][i] == ']' && text[1..][i + 1] == ':';
      assert text[i + 1] == ']' && text[i + 2] == ':';
    }
  }

  lemma V6RefusesIff(r: Resolver, text: string)
    ensures FilterV6(r, text) == Answer("", false) <==> NoBracketColon(text)
    ensures FilterV6(r, text).Answer? && !FilterV6(r, text).ok ==> FilterV6(r, text).text == ""
  {
    BracketSplits(text);
  }

  lemma TwoFieldsRefuseIff(r: Resolver, text: string)
    requires |Split(text, ":")| == 2
    ensures var fields := Split(text, ":");
            Filter2(r, text, fields) == Answer("", false) <==> !Accepts(r, fields[0], fields[1])
  {
    JoinSplit(text, ":");
  }

  lemma ThreeFieldsRefuseIff(r: Resolver, text: string)
    requires |Split(text, ":")| == 3
    ensures Filter3(r, text) == Answer("", false)
       <==> '@' !in text || ':' !in Split(text, "@")[0] || (FallsToV6(r, text) && NoBracketColon(text))
    ensures Filter3(r, text).Answer? && !Filter3(r, text).ok ==> Filter3(r, text).text == ""
  {
    AtSplits(text);
    V6RefusesIff(r, text);
    var at := Split(text, "@");
    ColonSplits(at[0]);
    if |at| >= 2 {
      ColonSplits(at[1]);
    }
  }

  /** filter() answers ("", false) on exactly these texts, and a rejection is always that answer. */
  lemma RefusesIff(r: Resolver, text: string)
    ensures Filter(r, text) == Answer("", false) <==> Refuses(r, text)
    ensures Filter(r, text).Answer? && !Filter(r, text).ok ==> Filter(r, text).text == ""
  {
    ColonSplits(text);
    V6RefusesIff(r, text);
    var n := |Split(text, ":")|;
    if n == 2 {
      TwoFieldsRefuseIff(r, text);
    } else if n == 3 {
      ThreeFieldsRefuseIff(r, text);
    }
  }

  /** A domain with a port that is no number, unless netip can make something of it. */
  lemma NamedPortIsRefused(r: Resolver)
    requires r.parse("example.com:http") == None
    ensures Refuses(r, "example.com:http") && Filter(r, "example.com:http") == Answer("", false)
  {
    assert "example.com" + ":" + "http" == "example.com:http";
    assert !IsNumber("http") by {
      assert "http"[0] == 'h';
    }
    TwoFields(r, "example.com", "http");
    RefusesIff(r, "example.com:http");
  }

  // ---------------------------------------------------------------- numbers

  const DIGITS := "0123456789"

  /** A number in decimal notation. */
  function Decimal(n: nat): string {
    if n < 10 then [DIGITS[n]] else Decimal(n / 10) + [DIGITS[n % 10]]
  }

  lemma {:induction false} DecimalReadsBack(n: nat)
    ensures Digits(Decimal(n)) && ValueOf(Decimal(n)) == n
  {
    if n < 10 {
      OneDigitMore("", n);
      assert "" + [DIGITS[n]] == [DIGITS[n]];
    } else {
      DecimalReadsBack(n / 10);
      OneDigitMore(Decimal(n / 10), n % 10);
    }
  }

  lemma OneDigitMore(s: string, d: nat)
    requires d < 10 && (s == "" || Digits(s))
    ensures Digits(s + [DIGITS[d]]) && ValueOf(s + [DIGITS[d]]) == 10 * ValueOf(s) + d
  {
    assert (s + [DIGITS[d]])[..|s|] == s;
    DigitValue(d);
  }

  lemma DigitValue(d: nat)
    requires d < 10
    ensures '0' <= DIGITS[d] <= '9' && (DIGITS[d] - '0') as int == d
  {
  }

  /** isNumber() takes every integer of 64 bits in decimal notation, with or without its sign, and no larger one. */
  lemma NumbersAreNumbers(n: nat)
    ensures IsNumber(Decimal(n)) <==> n < 0x8000_0000_0000_0000
    ensures IsNumber("+" + Decimal(n)) <==> n < 0x8000_0000_0000_0000
    ensures IsNumber("-" + Decimal(n)) <==> n <= 0x8000_0000_0000_0000
  {
    DecimalReadsBack(n);
    var s := Decimal(n);
    assert '0' <= s[0] <= '9';
    assert ("-" + s)[1..] == s && ("+" + s)[1..] == s;
  }

  /** And nothing but digits behind an optional sign. */
  lemma NumbersAreDigits(s: string)
    requires IsNumber(s)
    ensures s != "" && s != "+" && s != "-"
    ensures forall i :: 0 < i < |s| ==> '0' <= s[i] <= '9'
    ensures '0' <= s[0] <= '9' || s[0] == '+' || s[0] == '-'
  {
    if s[0] == '-' || s[0] == '+' {
      forall i | 0 < i < |s| ensures '0' <= s[i] <= '9' {
        assert s[i] == s[1..][i - 1];
      }
    }
  }
}
