/** Query-shape committed routes (app/src/codec.ts): the destination's own path and search, with one
    authenticated engine token appended as a search part. URL parsing, number parsing and the test of a
    host-root label are parameters; the payload text, the MAC, the search parts and the loops are not. */
module QueryHandle {
  import opened Common
  import opened Base64Url
  import opened RouteTokens
  import opened QueryText

  /** The pieces of the platform the handle code calls. Times are milliseconds. */
  datatype Env = Env(
    c: Crypto,
    httpOrigin: bytes -> Option<bytes>,  // the origin of an http(s) URL, None for anything else
    number: bytes -> Option<int>,        // a finite JavaScript Number(...)
    rootLabel: bytes -> bool             // 1 to 256 characters, none a control character
  )

  function Newline(): byte { 0x0a }
  function Colon(): byte { 0x3a }
  function Tag(): bytes { [0x7a, 0x6c, 0x3a, 0x6e, 0x61, 0x76, 0x68, 0x3a] }  // "zl:navh:"
  function NonceField(): bytes { [0x6e, 0x6f, 0x6e, 0x63, 0x65, 0x3a] }       // "nonce:"
  function RootField(): bytes { [0x72, 0x6f, 0x6f, 0x74, 0x3a] }              // "root:"

  const HEAD := "zlNavh="

  // ----- handle payload -----

  function Digits(n: nat): (d: bytes)
    ensures |d| >= 1 && forall b <- d :: 0x30 <= b <= 0x39
  {
    var last := 0x30 + ((n % 10) as bv8);
    if n < 10 then [last] else Digits(n / 10) + [last]
  }

  function Chars(s: string): bytes {
    seq(|s|, i requires 0 <= i < |s| => if s[i] as int < 128 then (s[i] as int) as bv8 else 0x3f)
  }

  /** The label of a root client is bound into the token only when it is usable. */
  function Binding(e: Env, root: Option<bytes>): bytes {
    if root.Some? && e.rootLabel(root.value)
    then [Newline()] + RootLine(root.value)
    else []
  }

  function HandlePayload(e: Env, expires: nat, origin: bytes, nonce: bytes, root: Option<bytes>): bytes {
    Tag() + (Digits(expires) + [Colon()] + (origin + [Newline()] + (NonceLine(nonce) + Binding(e, root))))
  }

  function NonceLine(nonce: bytes): bytes {
    NonceField() + nonce
  }

  function RootLine(root: bytes): bytes {
    RootField() + Chars(Base64Url.Encode(root))
  }

  datatype Info = Info(dest: bytes, root: Option<bytes>, expires: int)

  /** What one key's payload means to the decoder: look at the next key, give up, or this. */
  datatype Verdict = NextKey | GiveUp | Found(info: Info)

  function UpTo(b: bytes, stop: byte): (r: bytes)
    ensures r <= b && stop !in r
    ensures |r| < |b| ==> b[|r|] == stop
  {
    if b == [] || b[0] == stop then [] else [b[0]] + UpTo(b[1..], stop)
  }

  function Lines(b: bytes): (r: seq<bytes>)
    ensures |r| >= 1
    decreases |b|
  {
    var first := UpTo(b, Newline());
    if |first| == |b| then [first] else [first] + Lines(b[|first| + 1..])
  }

  function FirstWith(prefix: bytes, fields: seq<bytes>): (r: Option<bytes>)
    ensures r.Some? ==> prefix <= r.value
  {
    if fields == [] then None
    else if prefix <= fields[0] then Some(fields[0])
    else FirstWith(prefix, fields[1..])
  }

  /** The body of the key loop of `decodeNavHandlePayload`, on a MAC-verified payload. */
  function ReadPayload(e: Env, payload: bytes): Verdict {
    if !(Tag() <= payload) then NextKey
    else
      var rest := payload[|Tag()|..];
      var time := UpTo(rest, Colon());
      if |time| == |rest| then NextKey
      else
        var expires := e.number(time);
        if expires.None? then GiveUp
        else ReadFields(e, expires.value, Lines(rest[|time| + 1..]))
  }

  function ReadFields(e: Env, expires: int, fields: seq<bytes>): Verdict
    requires |fields| >= 1
  {
    var field := FirstWith(RootField(), fields);
    if field.None? then Checked(e, Info(fields[0], None, expires))
    else
      var raw := Base64Url.Decode(AsText(field.value[|RootField()|..]));
      if raw.None? then NextKey
      else
        var text := StrictText(e.c, raw.value);
        if text.None? then NextKey
        else Checked(e, Info(fields[0], if e.rootLabel(text.value) then text else None, expires))
  }

  function Checked(e: Env, info: Info): Verdict {
    if e.httpOrigin(info.dest).Some? then Found(info) else NextKey
  }

  /** `decodeNavHandlePayload`, key by key, newest first. */
  function InfoUnder(e: Env, keys: seq<bytes>, bs: bytes): Option<Info> {
    if keys == [] then None
    else
      var p := Payload(e.c, keys[0], bs);
      var v := if p.None? then NextKey else ReadPayload(e, p.value);
      if v.NextKey? then InfoUnder(e, keys[1..], bs) else if v.GiveUp? then None else Some(v.info)
  }

  function NavInfo(e: Env, keys: seq<bytes>, token: string): Option<Info> {
    var bs := Base64Url.Decode(token);
    if bs.None? then None else InfoUnder(e, keys, bs.value)
  }

  /** `decodeNavHandle`: the destination of a live handle. */
  function LiveDest(e: Env, keys: seq<bytes>, now: int, token: string): Option<bytes> {
    var i := NavInfo(e, keys, token);
    if i.Some? && now <= i.value.expires then Some(i.value.dest) else None
  }

  /** `decodeExpiredNavHandle`. */
  function ExpiredDest(e: Env, keys: seq<bytes>, now: int, token: string): Option<bytes> {
    var i := NavInfo(e, keys, token);
    if i.Some? && now > i.value.expires then Some(i.value.dest) else None
  }

  /** Up to its expiry and no longer a readable handle is live, and from then on it is expired: never both, never
      neither, and either way it names the same destination. */
  lemma LiveOrExpired(e: Env, keys: seq<bytes>, now: int, token: string)
    ensures var live, expired := LiveDest(e, keys, now, token), ExpiredDest(e, keys, now, token);
      match NavInfo(e, keys, token)
      case None => live.None? && expired.None?
      case Some(i) => if now <= i.expires then live == Some(i.dest) && expired.None? else live.None? && expired == Some(i.dest)
  {
    hide NavInfo;
  }

  /** Whatever the keys open, only http(s) destinations are read out of it. */
  lemma {:induction false} InfoIsHttp(e: Env, keys: seq<bytes>, bs: bytes)
    ensures var i := InfoUnder(e, keys, bs); i.Some? ==> e.httpOrigin(i.value.dest).Some?
    decreases |keys|
  {
    hide Payload;
    if keys != [] {
      InfoIsHttp(e, keys[1..], bs);
      var p := Payload(e.c, keys[0], bs);
      if p.Some? {
        FoundIsHttp(e, p.value);
      }
      hide ReadPayload;
    }
  }

  lemma FoundIsHttp(e: Env, payload: bytes)
    ensures ReadPayload(e, payload).Found? ==> e.httpOrigin(ReadPayload(e, payload).info.dest).Some?
  {
    hide StrictText, Lines, FirstWith, UpTo;
  }

  lemma DecodedIsHttp(e: Env, keys: seq<bytes>, token: string)
    ensures var i := NavInfo(e, keys, token); i.Some? ==> e.httpOrigin(i.value.dest).Some?
  {
    var bs := Base64Url.Decode(token);
    if bs.Some? {
      InfoIsHttp(e, keys, bs.value);
    }
    hide InfoUnder;
  }

  predicate OriginOnly(e: Env, d: bytes) {
    e.httpOrigin(d) == Some(d)
  }

  /** `navqEngineOrigin`. */
  function EngineOrigin(e: Env, keys: seq<bytes>, now: int, token: string): Option<bytes> {
    var live := LiveDest(e, keys, now, token);
    var o := if live.Some? then live else ExpiredDest(e, keys, now, token);
    if o.Some? && OriginOnly(e, o.value) then o else None
  }

  /** A token the engine minted for a query route, live or expired. */
  predicate EngineToken(e: Env, keys: seq<bytes>, token: string) {
    var i := NavInfo(e, keys, token);
    i.Some? && OriginOnly(e, i.value.dest)
  }

  predicate EnginePart(e: Env, keys: seq<bytes>, part: string) {
    HEAD <= part && EngineToken(e, keys, part[|HEAD|..])
  }

  /** Engine vocabulary does not depend on the clock. */
  lemma EngineOriginIsTimeless(e: Env, keys: seq<bytes>, now: int, token: string)
    ensures EngineOrigin(e, keys, now, token).Some? <==> EngineToken(e, keys, token)
    ensures EngineToken(e, keys, token) ==>
      EngineOrigin(e, keys, now, token) == Some(NavInfo(e, keys, token).value.dest)
  {
  }

  // ----- search parts -----

  /** The destination's own parts: everything that is not an engine token, in order. */
  function SiteParts(e: Env, keys: seq<bytes>, parts: seq<string>): (r: seq<string>)
    ensures forall p <- r :: p in parts && !EnginePart(e, keys, p)
  {
    if parts == [] then []
    else (if EnginePart(e, keys, parts[0]) then [] else [parts[0]]) + SiteParts(e, keys, parts[1..])
  }

  function CountEngine(e: Env, keys: seq<bytes>, parts: seq<string>): nat {
    if parts == [] then 0
    else (if EnginePart(e, keys, parts[0]) then 1 else 0) + CountEngine(e, keys, parts[1..])
  }

  /** The parts of a search string; an absent search has none. */
  function Parts(search: string): seq<string> {
    if search == "" then [] else Split(if search[0] == '?' then search[1..] else search)
  }

  function Search(parts: seq<string>): string {
    if parts == [] then "" else "?" + Join(parts)
  }

  predicate LivePart(e: Env, keys: seq<bytes>, now: int, part: string) {
    HEAD <= part && var o := LiveDest(e, keys, now, part[|HEAD|..]); o.Some? && OriginOnly(e, o.value)
  }

  /** The first live engine token: it names the origin and the host root. */
  function FirstLive(e: Env, keys: seq<bytes>, now: int, parts: seq<string>): Option<Info> {
    if parts == [] then None
    else if LivePart(e, keys, now, parts[0]) then NavInfo(e, keys, parts[0][|HEAD|..])
    else FirstLive(e, keys, now, parts[1..])
  }

  // ----- the paths the engine keeps for itself -----

  const ASSETS := {"/sw.js", "/bootstrap.js", "/prelude.js", "/worker-prelude.js", "/devtools.html",
                   "/devtools.js", "/index.html", "/rewriter_wasm.js", "/rewriter_wasm_bg.wasm"}

  predicate EnginePathShaped(prefix: string, path: string) {
    path in ASSETS || prefix <= path || "/__zl_navh__" <= path || "/__zl_prel__" <= path
    || "/__zl_nav__" <= path || "/zl-ext/" <= path || "/zl-cs/" <= path || "/wisp/" <= path
  }

  /** The paths under which the engine serves itself: its own files, its routes, the shapes of its navigation handles,
      the extension and content-script roots and the socket's path. */
  lemma EnginePathsAre(prefix: string, path: string)
    ensures EnginePathShaped(prefix, path) <==>
      path in ["/sw.js", "/bootstrap.js", "/prelude.js", "/worker-prelude.js", "/devtools.html", "/devtools.js",
               "/index.html", "/rewriter_wasm.js", "/rewriter_wasm_bg.wasm"]
      || exists root :: root in [prefix, "/__zl_navh__", "/__zl_prel__", "/__zl_nav__", "/zl-ext/", "/zl-cs/", "/wisp/"]
           && root <= path
  {
    var roots := [prefix, "/__zl_navh__", "/__zl_prel__", "/__zl_nav__", "/zl-ext/", "/zl-cs/", "/wisp/"];
    assert prefix in roots && "/__zl_navh__" in roots && "/__zl_prel__" in roots && "/__zl_nav__" in roots;
    assert "/zl-ext/" in roots && "/zl-cs/" in roots && "/wisp/" in roots;
  }

  /** The part of the prefix grammar that matters here: one segment of letters, digits, "_" and "-". */
  predicate PrefixOk(prefix: string) {
    |prefix| >= 3 && prefix[0] == '/' && prefix[1] != '%' && prefix[1] != '/'
  }

  /** Escaping a path the mint accepts never turns it into one the decode refuses. */
  lemma EscapeKeepsShape(prefix: string, path: string)
    requires PrefixOk(prefix) && !EnginePathShaped(prefix, path)
    ensures !EnginePathShaped(prefix, EscapeLeadingSlashes(path))
  {
    EscapedOpensOnce(path);
    if Slashes(path) >= 2 {
      var esc := EscapeLeadingSlashes(path);
      assert esc[1] == '%';
      assert forall a <- ASSETS :: a[1] != '%';
    } else {
      assert EscapeLeadingSlashes(path) == path;
    }
  }

  // ----- mint and decode -----

  datatype Url = Url(origin: bytes, path: string, search: string)
  datatype Destination = Destination(origin: bytes, path: string, search: string, root: Option<bytes>)

  function MintHandle(e: Env, key: bytes, expires: nat, origin: bytes, nonce: bytes, root: Option<bytes>): string {
    Base64Url.Encode(Token(e.c, key, HandlePayload(e, expires, origin, nonce, root)))
  }

  /** The committed path and search for a destination, given the fresh token. */
  function Committed(e: Env, keys: seq<bytes>, u: Url, token: string): Url {
    Url(u.origin, EscapeLeadingSlashes(u.path),
        Search(SiteParts(e, keys, Parts(u.search)) + [HEAD + token]))
  }

  /** `decodeQueryHandle`. */
  function Decoded(e: Env, keys: seq<bytes>, prefix: string, now: int, path: string, search: string)
      : Option<Destination>
  {
    if EnginePathShaped(prefix, path) || search == "" || search == "?" then None
    else
      var live := FirstLive(e, keys, now, Parts(search));
      if live.None? then None
      else Some(Destination(live.value.dest, RestoreLeadingSlashes(path),
                            Search(SiteParts(e, keys, Parts(search))), live.value.root))
  }

  // ----- the fresh token reads back -----

  predicate Ascii7(b: bytes) {
    forall i :: 0 <= i < |b| ==> b[i] < 0x80
  }

  /** What is assumed of the platform: numbers print and parse back, an origin is its own origin, plain
      ASCII text on one line, and ASCII is valid UTF-8. */
  ghost predicate PlatformOk(e: Env) {
    && (forall n: nat :: e.number(Digits(n)) == Some(n as int))
    && (forall d: bytes, o: bytes :: e.httpOrigin(d) == Some(o) ==>
          e.httpOrigin(o) == Some(o) && Ascii7(o) && Newline() !in o && HttpUrl(o))
    && (forall b: bytes :: Ascii7(b) ==> e.c.utf8(b))
  }

  predicate NonceOk(nonce: bytes) {
    Ascii7(nonce) && Newline() !in nonce
  }

  /** The root label as the decoder reports it. */
  function RootBack(e: Env, root: Option<bytes>): Option<bytes> {
    if root.Some? && e.rootLabel(root.value) && e.c.utf8(root.value) then
      var text := StrictText(e.c, root.value);
      if e.rootLabel(text.value) then text else None
    else None
  }

  lemma {:induction false} UpToStop(a: bytes, stop: byte, b: bytes)
    requires stop !in a
    ensures UpTo(a + [stop] + b, stop) == a
  {
    if a == [] {
    } else {
      assert (a + [stop] + b)[1..] == a[1..] + [stop] + b;
      UpToStop(a[1..], stop, b);
    }
  }

  lemma {:induction false} UpToEnd(a: bytes, stop: byte)
    requires stop !in a
    ensures UpTo(a, stop) == a
  {
    if a != [] {
      UpToEnd(a[1..], stop);
    }
  }

  lemma LinesStep(a: bytes, b: bytes)
    requires Newline() !in a
    ensures Lines(a + [Newline()] + b) == [a] + Lines(b)
  {
    UpToStop(a, Newline(), b);
    var s := a + [Newline()] + b;
    assert s[|a| + 1..] == b;
  }

  lemma LinesLast(a: bytes)
    requires Newline() !in a
    ensures Lines(a) == [a]
  {
    UpToEnd(a, Newline());
  }

  lemma CharsOfAlphabet(s: string)
    requires InAlphabet(s)
    ensures AsText(Chars(s)) == s && Ascii7(Chars(s)) && Newline() !in Chars(s)
  {
    forall i | 0 <= i < |s| ensures 0x2d <= s[i] as int < 0x7b {
      assert IndexOf(s[i]) >= 0;
    }
    forall i | 0 <= i < |s| ensures Chars(s)[i] as int == s[i] as int && 0x0a < Chars(s)[i] < 0x80 {
      AsciiByte(s[i] as int);
    }
  }

  lemma AsciiByte(x: int)
    requires 0x2d <= x < 0x7b
    ensures 0x0a < x as bv8 < 0x80 && (x as bv8) as int == x
  {
    ByteValue(x);
    var b := x as bv8;
    if b <= 0x0a {
      AtMostNewline(b);
    } else if b >= 0x80 {
      AtLeastHigh(b);
    }
  }

  lemma AtMostNewline(b: byte)
    requires b <= 0x0a
    ensures b as int <= 0x0a
  {
  }

  lemma AtLeastHigh(b: byte)
    requires b >= 0x80
    ensures b as int >= 0x80
  {
  }

  lemma PlainFields()
    ensures Ascii7(Tag()) && Ascii7(NonceField()) && Ascii7(RootField())
    ensures Newline() !in NonceField() && Newline() !in RootField()
    ensures Tag()[0] == 0x7a && |NonceField()| == 6 && |RootField()| == 5 && |Tag()| == 8
  {
  }

  lemma LinesAreWhole(nonce: bytes, root: bytes)
    requires NonceOk(nonce)
    ensures Newline() !in NonceLine(nonce) && Newline() !in RootLine(root)
  {
    PlainFields();
    ValuesText(Sextets(root));
    CharsOfAlphabet(Base64Url.Encode(root));
  }

  /** The field lines of a minted payload. */
  lemma MintedLines(e: Env, origin: bytes, nonce: bytes, root: Option<bytes>)
    requires Newline() !in origin && NonceOk(nonce)
    ensures Lines(origin + [Newline()] + (NonceLine(nonce) + Binding(e, root)))
         == [origin, NonceLine(nonce)] +
            (if root.Some? && e.rootLabel(root.value) then [RootLine(root.value)] else [])
  {
    var bound := root.Some? && e.rootLabel(root.value);
    LinesAreWhole(nonce, if bound then root.value else []);
    assert Binding(e, root) == if bound then [Newline()] + RootLine(root.value) else [];
    hide NonceLine, RootLine, Lines, NonceOk, Binding;
    if bound {
      TwoLines(origin, NonceLine(nonce), RootLine(root.value));
    } else {
      LastLine(origin, NonceLine(nonce));
    }
  }

  lemma LastLine(a: bytes, b: bytes)
    requires Newline() !in a && Newline() !in b
    ensures Lines(a + [Newline()] + (b + [])) == [a, b]
  {
    hide Lines;
    assert b + [] == b;
    LinesStep(a, b);
    LinesLast(b);
  }

  lemma TwoLines(a: bytes, b: bytes, c: bytes)
    requires Newline() !in a && Newline() !in b && Newline() !in c
    ensures Lines(a + [Newline()] + (b + ([Newline()] + c))) == [a, b] + [c]
  {
    hide Lines;
    assert b + ([Newline()] + c) == b + [Newline()] + c;
    LinesStep(a, b + [Newline()] + c);
    LinesStep(b, c);
    LinesLast(c);
  }

  lemma FirstByteDiffers(a: bytes, b: bytes)
    requires |a| > 0 && |b| > 0 && a[0] != b[0]
    ensures !(a <= b)
  {
  }

  lemma HttpNotRoot(o: bytes)
    requires HttpUrl(o)
    ensures |o| > 0 && !(RootField() <= o)
  {
    assert Ascii("http://")[0] == 0x68 && Ascii("https://")[0] == 0x68;
    FirstByteDiffers(RootField(), o);
  }

  lemma FirstRootLine(origin: bytes, nonce: bytes, last: seq<bytes>)
    requires HttpUrl(origin) && (last == [] || (|last| == 1 && RootField() <= last[0]))
    ensures FirstWith(RootField(), [origin, NonceLine(nonce)] + last) == if last == [] then None else Some(last[0])
  {
    HttpNotRoot(origin);
    FirstByteDiffers(RootField(), NonceLine(nonce));
    var fields := [origin, NonceLine(nonce)] + last;
    hide HttpUrl, RootField, NonceLine;
    assert fields[1..] == [NonceLine(nonce)] + last;
    assert fields[1..][1..] == last;
    assert FirstWith(RootField(), fields[1..]) == FirstWith(RootField(), last);
  }

  /** The label a root line carries. */
  lemma RootLineDecodes(root: bytes)
    ensures RootField() <= RootLine(root)
    ensures Base64Url.Decode(AsText(RootLine(root)[|RootField()|..])) == Some(root)
  {
    var enc := Base64Url.Encode(root);
    ValuesText(Sextets(root));
    CharsOfAlphabet(enc);
    DecodeIffEncode(enc, root);
    hide Base64Url.Encode, Base64Url.Decode, AsText, Chars;
    assert RootLine(root)[|RootField()|..] == Chars(enc);
  }

  lemma ReadMintedFields(e: Env, expires: int, origin: bytes, nonce: bytes, root: Option<bytes>)
    requires PlatformOk(e) && OriginOnly(e, origin) && NonceOk(nonce)
    requires root.Some? ==> e.c.utf8(root.value)
    ensures ReadFields(e, expires, Lines(origin + [Newline()] + (NonceLine(nonce) + Binding(e, root))))
         == Found(Info(origin, RootBack(e, root), expires))
  {
    hide Lines, Binding, Base64Url.Decode, AsText, HttpUrl, RootLine, NonceLine, StrictText;
    MintedLines(e, origin, nonce, root);
    if root.Some? && e.rootLabel(root.value) {
      RootLineDecodes(root.value);
      FirstRootLine(origin, nonce, [RootLine(root.value)]);
      TextIfUtf8(e.c, root.value);
    } else {
      FirstRootLine(origin, nonce, []);
    }
  }

  lemma TextIfUtf8(c: Crypto, d: bytes)
    requires c.utf8(d)
    ensures StrictText(c, d).Some?
  {
  }

  /** A payload the mint wrote reads back as what was put in. */
  lemma ReadMinted(e: Env, expires: nat, origin: bytes, nonce: bytes, root: Option<bytes>)
    requires PlatformOk(e) && OriginOnly(e, origin) && NonceOk(nonce)
    requires root.Some? ==> e.c.utf8(root.value)
    ensures ReadPayload(e, HandlePayload(e, expires, origin, nonce, root))
         == Found(Info(origin, RootBack(e, root), expires))
  {
    var body := origin + [Newline()] + (NonceLine(nonce) + Binding(e, root));
    var time := Digits(expires);
    ReadMintedFields(e, expires, origin, nonce, root);
    assert Colon() !in time;
    assert HandlePayload(e, expires, origin, nonce, root) == Tag() + (time + [Colon()] + body);
    hide HandlePayload, Lines, Binding, ReadFields, Digits, RootBack, OriginOnly, NonceOk, Tag;
    assert e.number(time) == Some(expires);
    hide PlatformOk;
    ReadStamped(e, expires, time, body);
  }

  lemma ReadStamped(e: Env, expires: int, time: bytes, body: bytes)
    requires Colon() !in time && e.number(time) == Some(expires)
    ensures ReadPayload(e, Tag() + (time + [Colon()] + body)) == ReadFields(e, expires, Lines(body))
  {
    hide Tag, ReadFields, Lines;
    var rest := time + [Colon()] + body;
    assert (Tag() + rest)[|Tag()|..] == rest;
    UpToStop(time, Colon(), body);
    assert rest[|time| + 1..] == body;
  }

  lemma Ascii7Join(a: bytes, b: bytes)
    requires Ascii7(a) && Ascii7(b)
    ensures Ascii7(a + b)
  {
  }

  lemma DigitsPlain(n: nat)
    ensures Ascii7(Digits(n))
  {
    var d := Digits(n);
    hide Digits;
    forall i | 0 <= i < |d| ensures d[i] < 0x80 {
      assert d[i] in d;
    }
  }

  lemma BindingPlain(e: Env, root: Option<bytes>)
    ensures Ascii7(Binding(e, root))
  {
    PlainFields();
    if root.Some? {
      ValuesText(Sextets(root.value));
      CharsOfAlphabet(Base64Url.Encode(root.value));
      Ascii7Join(RootField(), Chars(Base64Url.Encode(root.value)));
    }
    hide Base64Url.Encode, Chars;
  }

  /** Everything a mint writes is ASCII. */
  lemma MintedIsAscii(e: Env, expires: nat, origin: bytes, nonce: bytes, root: Option<bytes>)
    requires Ascii7(origin) && Ascii7(nonce)
    ensures Ascii7(HandlePayload(e, expires, origin, nonce, root))
  {
    PlainFields();
    DigitsPlain(expires);
    BindingPlain(e, root);
    assert Ascii7([Colon()]) && Ascii7([Newline()]);
    hide Digits, Binding, Tag, NonceField, Colon, Newline, Ascii7;
    Ascii7Join(NonceField(), nonce);
    Ascii7Join(NonceLine(nonce), Binding(e, root));
    var body := NonceLine(nonce) + Binding(e, root);
    Ascii7Join([Newline()], body);
    Ascii7Join(origin, [Newline()] + body);
    assert origin + [Newline()] + body == origin + ([Newline()] + body);
    var lines := origin + ([Newline()] + body);
    Ascii7Join([Colon()], lines);
    Ascii7Join(Digits(expires), [Colon()] + lines);
    assert Digits(expires) + [Colon()] + lines == Digits(expires) + ([Colon()] + lines);
    Ascii7Join(Tag(), Digits(expires) + ([Colon()] + lines));
  }

  lemma PayloadIsPlain(e: Env, expires: nat, origin: bytes, nonce: bytes, root: Option<bytes>)
    requires PlatformOk(e) && OriginOnly(e, origin) && NonceOk(nonce)
    ensures var p := HandlePayload(e, expires, origin, nonce, root); StrictText(e.c, p) == Some(p)
  {
    var p := HandlePayload(e, expires, origin, nonce, root);
    assert Ascii7(origin) && Ascii7(nonce);
    MintedIsAscii(e, expires, origin, nonce, root);
    assert p[0] == Tag()[0] == 0x7a;
    hide HandlePayload, Ascii7;
    assert e.c.utf8(p);
  }

  /** A freshly minted handle decodes, under the minting key, to the origin, root and expiry it was minted for. */
  lemma MintedInfo(e: Env, keys: seq<bytes>, expires: nat, origin: bytes, nonce: bytes, root: Option<bytes>)
    requires PlatformOk(e) && OriginOnly(e, origin) && NonceOk(nonce) && keys != []
    requires root.Some? ==> e.c.utf8(root.value)
    ensures NavInfo(e, keys, MintHandle(e, keys[0], expires, origin, nonce, root))
         == Some(Info(origin, RootBack(e, root), expires))
  {
    var p := HandlePayload(e, expires, origin, nonce, root);
    var t := Token(e.c, keys[0], p);
    ReadMinted(e, expires, origin, nonce, root);
    PayloadIsPlain(e, expires, origin, nonce, root);
    PayloadOfToken(e.c, keys[0], p);
    DecodeIffEncode(Base64Url.Encode(t), t);
  }

  // ----- search parts: filters over appended tokens -----

  lemma {:induction false} SitePartsAppend(e: Env, keys: seq<bytes>, a: seq<string>, b: seq<string>)
    ensures SiteParts(e, keys, a + b) == SiteParts(e, keys, a) + SiteParts(e, keys, b)
    ensures CountEngine(e, keys, a + b) == CountEngine(e, keys, a) + CountEngine(e, keys, b)
  {
    hide EnginePart;
    if a == [] {
      assert a + b == b;
    } else {
      assert (a + b)[1..] == a[1..] + b;
      SitePartsAppend(e, keys, a[1..], b);
    }
  }

  lemma {:induction false} SitePartsAreClean(e: Env, keys: seq<bytes>, parts: seq<string>)
    requires forall p <- parts :: !EnginePart(e, keys, p)
    ensures SiteParts(e, keys, parts) == parts && CountEngine(e, keys, parts) == 0
  {
    hide EnginePart;
    if parts != [] {
      assert parts[0] in parts;
      SitePartsAreClean(e, keys, parts[1..]);
    }
  }

  lemma {:induction false} FirstLiveSkips(e: Env, keys: seq<bytes>, now: int, a: seq<string>, b: seq<string>)
    requires forall p <- a :: !EnginePart(e, keys, p)
    ensures FirstLive(e, keys, now, a + b) == FirstLive(e, keys, now, b)
  {
    if a == [] {
      assert a + b == b;
    } else {
      LiveIsEngine(e, keys, now, a[0]);
      assert a[0] in a;
      hide EnginePart, LivePart;
      assert (a + b)[1..] == a[1..] + b;
      FirstLiveSkips(e, keys, now, a[1..], b);
    }
  }

  lemma LiveIsEngine(e: Env, keys: seq<bytes>, now: int, part: string)
    ensures LivePart(e, keys, now, part) ==> EnginePart(e, keys, part)
  {
  }

  lemma PartsOfSearch(parts: seq<string>)
    requires parts != [] && forall p <- parts :: '&' !in p
    ensures Parts(Search(parts)) == parts
  {
    assert Search(parts)[1..] == Join(parts);
    SplitJoin(parts);
  }

  lemma NoAmpersand(e: Env, keys: seq<bytes>, search: string, token: string)
    requires InAlphabet(token)
    ensures forall p <- SiteParts(e, keys, Parts(search)) + [HEAD + token] :: '&' !in p
  {
    forall i | 0 <= i < |token| ensures token[i] != '&' {
      assert IndexOf(token[i]) >= 0 && IndexOf('&') == -1;
    }
  }
}
