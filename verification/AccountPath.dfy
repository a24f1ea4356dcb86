/** The object paths of accounts: what a path says about an account, including the way an old account
    manager escaped protocol names.
 */
module AccountPath {

  // ---- characters and strings

  predicate Letter(c: char) {
    'a' <= c <= 'z' || 'A' <= c <= 'Z'
  }

  predicate Word(c: char) {
    Letter(c) || '0' <= c <= '9' || c == '_'
  }

  predicate AllWord(s: string) {
    s == "" || (Word(s[0]) && AllWord(s[1..]))
  }

  predicate Lacks(s: string, c: char) {
    s == "" || (s[0] != c && Lacks(s[1..], c))
  }

  predicate StartsWith(s: string, prefix: string) {
    |prefix| <= |s| && s[..|prefix|] == prefix
  }

  predicate Contains(s: string, part: string) {
    StartsWith(s, part) || (s != "" && Contains(s[1..], part))
  }

  /** The first character of a C string. */
  function First(s: string): char {
    if s == "" then '\0' else s[0]
  }

  // ---- object paths

  /** The loop of tp_dbus_check_valid_object_path after the character `before`. */
  predicate ValidAfter(before: char, s: string)
    decreases |s|
  {
    if s == "" then before != '/'
    else if s[0] == '/' then before != '/' && ValidAfter('/', s[1..])
    else Word(s[0]) && ValidAfter(s[0], s[1..])
  }

  predicate ValidObjectPath(path: string) {
    path != "" && path[0] == '/' && (|path| == 1 || ValidAfter('/', path[1..]))
  }

  /** An object path as the D-Bus Specification builds it: every element after a slash. */
  function Built(elements: seq<string>): string {
    if elements == [] then "" else "/" + elements[0] + Built(elements[1..])
  }

  predicate Element(s: string) {
    s != "" && AllWord(s)
  }

  predicate Elements(es: seq<string>) {
    es == [] || (Element(es[0]) && Elements(es[1..]))
  }

  lemma {:induction false} ValidElement(before: char, e: string, rest: string)
    requires e != "" && AllWord(e)
    ensures ValidAfter(before, e + rest) == ValidAfter(e[|e| - 1], rest) && e[|e| - 1] != '/'
    decreases |e|
  {
    assert (e + rest)[1..] == e[1..] + rest;
    if |e| == 1 {
      assert e[1..] + rest == rest;
    } else {
      ValidElement(e[0], e[1..], rest);
    }
  }

  lemma {:induction false} BuiltValid(es: seq<string>, before: char)
    requires Elements(es) && before != '/'
    ensures ValidAfter(before, Built(es))
    decreases |es|
  {
    if es != [] {
      assert Built(es)[1..] == es[0] + Built(es[1..]);
      ValidElement('/', es[0], Built(es[1..]));
      BuiltValid(es[1..], es[0][|es[0]| - 1]);
    }
  }

  /** The elements a valid path consists of. */
  lemma {:induction false} ValidBuilt(before: char, s: string) returns (head: string, es: seq<string>)
    requires ValidAfter(before, s)
    ensures s == head + Built(es) && AllWord(head) && Elements(es) && (head == "" ==> before != '/')
    decreases |s|
  {
    if s == "" {
      head, es := "", [];
    } else if s[0] == '/' {
      var h, rest := ValidBuilt('/', s[1..]);
      head, es := "", [h] + rest;
      assert ([h] + rest)[1..] == rest;
      assert s == "/" + s[1..];
    } else {
      var h, rest := ValidBuilt(s[0], s[1..]);
      head, es := [s[0]] + h, rest;
      assert ([s[0]] + h)[1..] == h;
      assert s == [s[0]] + s[1..];
    }
  }

  ghost predicate BuiltFrom(path: string, es: seq<string>) {
    es != [] && Elements(es) && path == Built(es)
  }

  /** A path is valid exactly when it is the root or is built from non-empty elements of letters,
      digits and underscores. */
  lemma ValidExactly(path: string)
    ensures ValidObjectPath(path) <==> path == "/" || exists es :: BuiltFrom(path, es)
  {
    if ValidObjectPath(path) && |path| > 1 {
      var head, es := ValidBuilt('/', path[1..]);
      assert ([head] + es)[1..] == es;
      assert path == "/" + path[1..];
      assert BuiltFrom(path, [head] + es);
    }
    if es :| BuiltFrom(path, es) {
      assert Built(es)[1..] == es[0] + Built(es[1..]);
      ValidElement('/', es[0], Built(es[1..]));
      BuiltValid(es[1..], es[0][|es[0]| - 1]);
    }
  }

  // ---- protocol names

  /** g_strsplit at "_2d", and g_strjoinv with "-". */
  function Chunks(s: string): (cs: seq<string>)
    ensures cs != []
  {
    if s == "" then [""]
    else if StartsWith(s, "_2d") then [""] + Chunks(s[3..])
    else
      var cs := Chunks(s[1..]);
      [[s[0]] + cs[0]] + cs[1..]
  }

  function Joined(cs: seq<string>): string
    requires cs != []
  {
    if |cs| == 1 then cs[0] else cs[0] + "-" + Joined(cs[1..])
  }

  /** g_strdelimit (s, "_", '-') */
  function Delimited(s: string): string {
    if s == "" then "" else [if s[0] == '_' then '-' else s[0]] + Delimited(s[1..])
  }

  /** unescape_protocol */
  function Unescape(s: string): string {
    Delimited(if Contains(s, "_2d") then Joined(Chunks(s)) else s)
  }

  /** Every "_2d", read from the left, made a hyphen. */
  function Replaced(s: string): string {
    if s == "" then ""
    else if StartsWith(s, "_2d") then "-" + Replaced(s[3..])
    else [s[0]] + Replaced(s[1..])
  }

  lemma {:induction false} JoinedChunks(s: string)
    ensures Joined(Chunks(s)) == Replaced(s)
  {
    if s != "" {
      if StartsWith(s, "_2d") {
        JoinedChunks(s[3..]);
        assert ([""] + Chunks(s[3..]))[1..] == Chunks(s[3..]);
      } else {
        JoinedChunks(s[1..]);
        var cs := Chunks(s[1..]);
        var ds := [[s[0]] + cs[0]] + cs[1..];
        assert ds[1..] == cs[1..];
        if |cs| > 1 {
          assert [s[0]] + (cs[0] + "-" + Joined(cs[1..])) == ds[0] + "-" + Joined(ds[1..]);
        }
      }
    }
  }

  lemma {:induction false} ReplacedNothing(s: string)
    requires !Contains(s, "_2d")
    ensures Replaced(s) == s
  {
    if s != "" {
      ReplacedNothing(s[1..]);
    }
  }

  lemma UnescapeReplaces(s: string)
    ensures Unescape(s) == Delimited(Replaced(s))
  {
    JoinedChunks(s);
    if !Contains(s, "_2d") {
      ReplacedNothing(s);
    }
  }

  lemma {:induction false} DelimitedLacks(s: string)
    ensures Lacks(Delimited(s), '_') && |Delimited(s)| == |s| && (Lacks(s, '_') ==> Delimited(s) == s)
  {
    if s != "" {
      DelimitedLacks(s[1..]);
      assert Delimited(s)[1..] == Delimited(s[1..]);
      assert s == [s[0]] + s[1..];
    }
  }

  lemma LegacyStart(s: string)
    ensures StartsWith(s, "_2d") <==> |s| >= 3 && s[0] == '_' && s[1] == '2' && s[2] == 'd'
    ensures StartsWith(s, "-2d") <==> |s| >= 3 && s[0] == '-' && s[1] == '2' && s[2] == 'd'
  {
    if |s| >= 3 {
      assert s[..3] == [s[0], s[1], s[2]];
    }
  }

  lemma {:induction false} LacksLegacy(s: string)
    requires Lacks(s, '_')
    ensures !Contains(s, "_2d")
  {
    LegacyStart(s);
    if s != "" {
      LacksLegacy(s[1..]);
    }
  }

  /** A decoded protocol name has no underscore, and decoding it again changes nothing. */
  lemma Decoded(s: string)
    ensures Lacks(Unescape(s), '_') && Unescape(Unescape(s)) == Unescape(s)
  {
    var t := if Contains(s, "_2d") then Joined(Chunks(s)) else s;
    DelimitedLacks(t);
    LacksLegacy(Unescape(s));
    DelimitedLacks(Unescape(s));
  }

  // ---- the two ways to write a protocol name

  /** Hyphens as underscores, as the Account specification says. */
  function Escape(p: string): string {
    if p == "" then "" else [if p[0] == '-' then '_' else p[0]] + Escape(p[1..])
  }

  /** Hyphens as "_2d", as the old account manager did. */
  function EscapeLegacy(p: string): string {
    if p == "" then "" else (if p[0] == '-' then "_2d" else [p[0]]) + EscapeLegacy(p[1..])
  }

  lemma {:induction false} EscapeDelimited(p: string)
    requires Lacks(p, '_')
    ensures Delimited(Escape(p)) == p && |Escape(p)| == |p|
  {
    if p != "" {
      EscapeDelimited(p[1..]);
      assert Escape(p)[1..] == Escape(p[1..]);
      assert p == [p[0]] + p[1..];
    }
  }

  lemma EscapeStarts(p: string)
    requires Lacks(p, '_')
    ensures StartsWith(Escape(p), "_2d") <==> StartsWith(p, "-2d")
  {
    var e := Escape(p);
    EscapeDelimited(p);
    LegacyStart(e);
    LegacyStart(p);
    if |p| >= 3 {
      assert Lacks(p[1..], '_') && Lacks(p[1..][1..], '_');
      assert e[1] == Escape(p[1..])[0] && e[2] == Escape(p[1..])[1] == Escape(p[1..][1..])[0];
      assert p[1] == p[1..][0] != '_' && p[2] == p[1..][1..][0] != '_';
    }
  }

  lemma {:induction false} EscapeContains(p: string)
    requires Lacks(p, '_')
    ensures Contains(Escape(p), "_2d") <==> Contains(p, "-2d")
  {
    EscapeStarts(p);
    if p != "" {
      EscapeContains(p[1..]);
      assert Escape(p)[1..] == Escape(p[1..]);
    }
  }

  lemma {:induction false} ReplacedShorter(s: string)
    ensures |Replaced(s)| <= |s| && (Contains(s, "_2d") ==> |Replaced(s)| < |s|)
  {
    if s != "" {
      if StartsWith(s, "_2d") {
        ReplacedShorter(s[3..]);
      } else {
        ReplacedShorter(s[1..]);
      }
    }
  }

  /** Decoding undoes the specified escaping exactly for the names without "-2d" in them. */
  lemma EscapeUndone(p: string)
    requires Lacks(p, '_')
    ensures Unescape(Escape(p)) == p <==> !Contains(p, "-2d")
  {
    EscapeContains(p);
    EscapeDelimited(p);
    if Contains(p, "-2d") {
      UnescapeReplaces(Escape(p));
      ReplacedShorter(Escape(p));
      DelimitedLacks(Replaced(Escape(p)));
    }
  }

  lemma {:induction false} LegacyReplaced(p: string)
    requires Lacks(p, '_')
    ensures Replaced(EscapeLegacy(p)) == p
  {
    if p != "" {
      LegacyReplaced(p[1..]);
      assert p == [p[0]] + p[1..];
      var e := EscapeLegacy(p);
      if p[0] == '-' {
        assert e[..3] == "_2d" && e[3..] == EscapeLegacy(p[1..]);
      } else {
        assert e[0] == p[0] && e[1..] == EscapeLegacy(p[1..]);
        LegacyStart(e);
      }
    }
  }

  /** Decoding undoes the old escaping of every name. */
  lemma LegacyUndone(p: string)
    requires Lacks(p, '_')
    ensures Unescape(EscapeLegacy(p)) == p
  {
    UnescapeReplaces(EscapeLegacy(p));
    LegacyReplaced(p);
    DelimitedLacks(p);
  }

  // ---- parsing

  const BASE := "/org/freedesktop/Telepathy/Account/"

  /** g_strsplit (s, "/", 0), which gives no pieces for an empty string. */
  function Pieces(s: string): (ps: seq<string>)
    ensures ps != []
  {
    if s == "" then [""]
    else if s[0] == '/' then [""] + Pieces(s[1..])
    else
      var ps := Pieces(s[1..]);
      [[s[0]] + ps[0]] + ps[1..]
  }

  function Split(s: string): seq<string> {
    if s == "" then [] else Pieces(s)
  }

  datatype Parsed =
    | Account(cm: string, protocol: string, id: string)
    | InvalidPath
    | WrongPrefix
    | WrongCount
    | BadStart

  /** tp_account_parse_object_path */
  function Parse(path: string): Parsed {
    if !ValidObjectPath(path) then InvalidPath
    else if !StartsWith(path, BASE) then WrongPrefix
    else
      var segments := Split(path[|BASE|..]);
      if |segments| != 3 then WrongCount
      else if !Letter(First(segments[0])) || !Letter(First(segments[1])) then BadStart
      else if !Letter(First(segments[2])) && First(segments[2]) != '_' then BadStart
      else Account(segments[0], Unescape(segments[1]), segments[2])
  }

  function Printed(cm: string, protocol: string, id: string): string {
    BASE + cm + "/" + protocol + "/" + id
  }

  /** A connection manager's name, a protocol name as written in a path, and an account's identifier. */
  predicate Named(cm: string, written: string, id: string) {
    && AllWord(cm) && Letter(First(cm))
    && AllWord(written) && Letter(First(written))
    && AllWord(id) && (Letter(First(id)) || First(id) == '_')
  }

  lemma {:induction false} PiecesOf(a: string, rest: string)
    requires Lacks(a, '/')
    ensures Pieces(a) == [a]
    ensures Pieces(a + "/" + rest) == [a] + Pieces(rest)
  {
    if a == "" {
      assert a + "/" + rest == "/" + rest;
      assert ("/" + rest)[1..] == rest;
    } else {
      PiecesOf(a[1..], rest);
      assert (a + "/" + rest)[1..] == a[1..] + "/" + rest;
      assert a == [a[0]] + a[1..];
    }
  }

  function Slashed(ps: seq<string>): string
    requires ps != []
  {
    if |ps| == 1 then ps[0] else ps[0] + "/" + Slashed(ps[1..])
  }

  predicate NoSlashes(ps: seq<string>) {
    forall i :: 0 <= i < |ps| ==> Lacks(ps[i], '/')
  }

  lemma SlashFirst(ps: seq<string>)
    requires ps != [] && NoSlashes(ps)
    ensures Slashed([""] + ps) == "/" + Slashed(ps) && NoSlashes([""] + ps)
  {
    assert ([""] + ps)[1..] == ps;
    assert "" + "/" + Slashed(ps) == "/" + Slashed(ps);
  }

  lemma CharFirst(c: char, ps: seq<string>, qs: seq<string>)
    requires ps != [] && NoSlashes(ps) && c != '/' && qs == [[c] + ps[0]] + ps[1..]
    ensures Slashed(qs) == [c] + Slashed(ps) && NoSlashes(qs)
  {
    assert qs[1..] == ps[1..];
    assert ([c] + ps[0])[1..] == ps[0];
    if |ps| > 1 {
      assert [c] + (ps[0] + "/" + Slashed(ps[1..])) == qs[0] + "/" + Slashed(qs[1..]);
    }
  }

  lemma {:induction false} PiecesJoin(s: string)
    ensures Slashed(Pieces(s)) == s && NoSlashes(Pieces(s))
  {
    if s != "" {
      PiecesJoin(s[1..]);
      var ps := Pieces(s[1..]);
      assert s == [s[0]] + s[1..];
      if s[0] == '/' {
        SlashFirst(ps);
      } else {
        CharFirst(s[0], ps, [[s[0]] + ps[0]] + ps[1..]);
      }
    }
  }

  lemma {:induction false} WordLacksSlash(s: string)
    requires AllWord(s)
    ensures Lacks(s, '/')
  {
    if s != "" {
      WordLacksSlash(s[1..]);
    }
  }

  lemma ThreePieces(a: string, b: string, c: string)
    requires Lacks(a, '/') && Lacks(b, '/') && Lacks(c, '/')
    ensures Split(a + "/" + b + "/" + c) == [a, b, c]
  {
    var rest := b + "/" + c;
    assert a + "/" + b + "/" + c == a + "/" + rest;
    PiecesOf(a, rest);
    PiecesOf(b, c);
    PiecesOf(c, "");
    assert [a] + ([b] + [c]) == [a, b, c];
  }

  lemma {:induction false} AllWordByIndex(s: string)
    requires forall i :: 0 <= i < |s| ==> Word(s[i])
    ensures AllWord(s)
  {
    if s != "" {
      AllWordByIndex(s[1..]);
    }
  }

  lemma BaseElements(a: string, b: string, c: string, d: string)
    requires a == "org" && b == "freedesktop" && c == "Telepathy" && d == "Account"
    ensures Element(a) && Element(b) && Element(c) && Element(d)
  {
    AllWordByIndex(a);
    AllWordByIndex(b);
    AllWordByIndex(c);
    AllWordByIndex(d);
  }

  lemma BaseConcatenation(a: string, b: string, c: string, d: string)
    requires a == "org" && b == "freedesktop" && c == "Telepathy" && d == "Account"
    ensures BASE == "/" + a + "/" + b + "/" + c + "/" + d + "/"
  {
    var half := "/org/freedesktop/";
    assert half == "/" + a + "/" + b + "/";
    assert half + "Telepathy/Account/" == half + c + "/" + d + "/";
  }

  lemma PrependElement(e: string, es: seq<string>)
    requires Element(e) && Elements(es)
    ensures Elements([e] + es) && Built([e] + es) == "/" + e + Built(es)
  {
    assert ([e] + es)[1..] == es;
  }

  lemma PrependThree(cm: string, written: string, id: string) returns (es: seq<string>)
    requires Element(cm) && Element(written) && Element(id)
    ensures es != [] && Elements(es) && Built(es) == "/" + (cm + "/" + written + "/" + id)
  {
    PrependElement(id, []);
    PrependElement(written, [id] + []);
    PrependElement(cm, [written] + ([id] + []));
    es := [cm] + ([written] + ([id] + []));
    assert "/" + id + "" == "/" + id;
    assert "/" + cm + ("/" + written + ("/" + id)) == "/" + (cm + "/" + written + "/" + id);
  }

  lemma PrependFour(a: string, b: string, c: string, d: string, es: seq<string>, rest: string) returns (fs: seq<string>)
    requires Element(a) && Element(b) && Element(c) && Element(d) && Elements(es) && Built(es) == "/" + rest
    ensures fs != [] && Elements(fs) && Built(fs) == ("/" + a + "/" + b + "/" + c + "/" + d + "/") + rest
  {
    PrependElement(d, es);
    PrependElement(c, [d] + es);
    PrependElement(b, [c] + ([d] + es));
    PrependElement(a, [b] + ([c] + ([d] + es)));
    fs := [a] + ([b] + ([c] + ([d] + es)));
    Regroup(a, b, c, d, rest);
  }

  lemma Regroup(a: string, b: string, c: string, d: string, rest: string)
    ensures "/" + a + ("/" + b + ("/" + c + ("/" + d + ("/" + rest)))) == ("/" + a + "/" + b + "/" + c + "/" + d + "/") + rest
  {
    var x := "/" + a;
    var y := "/" + b;
    var z := "/" + c;
    var w := "/" + d;
    assert x + (y + (z + (w + ("/" + rest)))) == (x + y + z + w + "/") + rest;
    assert "/" + a + "/" + b == x + y;
    assert x + y + "/" + c == x + y + z;
    assert x + y + z + "/" + d == x + y + z + w;
  }

  lemma PrintedValid(cm: string, written: string, id: string)
    requires Named(cm, written, id)
    ensures ValidObjectPath(Printed(cm, written, id))
  {
    var a, b, c, d := "org", "freedesktop", "Telepathy", "Account";
    BaseElements(a, b, c, d);
    BaseConcatenation(a, b, c, d);
    PrintedBuilt(a, b, c, d, cm, written, id);
  }

  lemma PrintedBuilt(a: string, b: string, c: string, d: string, cm: string, written: string, id: string)
    requires Element(a) && Element(b) && Element(c) && Element(d) && Element(cm) && Element(written) && Element(id)
    requires BASE == "/" + a + "/" + b + "/" + c + "/" + d + "/"
    ensures ValidObjectPath(Printed(cm, written, id))
  {
    var es := PrependThree(cm, written, id);
    var fs := PrependFour(a, b, c, d, es, cm + "/" + written + "/" + id);
    assert BASE + (cm + "/" + written + "/" + id) == Printed(cm, written, id);
    assert BuiltFrom(Printed(cm, written, id), fs);
    ValidExactly(Printed(cm, written, id));
  }

  /** The parser takes a printed path apart, and decodes the protocol. */
  lemma ParsePrinted(cm: string, written: string, id: string)
    requires Named(cm, written, id)
    ensures Parse(Printed(cm, written, id)) == Account(cm, Unescape(written), id)
  {
    PrintedValid(cm, written, id);
    WordLacksSlash(cm);
    WordLacksSlash(written);
    WordLacksSlash(id);
    ThreePieces(cm, written, id);
    assert Printed(cm, written, id)[|BASE|..] == cm + "/" + written + "/" + id;
    assert Printed(cm, written, id)[..|BASE|] == BASE;
  }

  ghost predicate Prints(path: string, cm: string, written: string, id: string) {
    Named(cm, written, id) && path == Printed(cm, written, id)
  }

  /** A path is accepted exactly when it is the prefix followed by a connection manager, a protocol and
      an identifier, and then it is taken apart into these. */
  lemma AcceptsExactly(path: string)
    ensures Parse(path).Account? <==> exists cm, written, id :: Prints(path, cm, written, id)
    ensures forall cm, written, id :: Prints(path, cm, written, id) ==> Parse(path) == Account(cm, Unescape(written), id)
  {
    forall cm, written, id | Prints(path, cm, written, id)
      ensures Parse(path) == Account(cm, Unescape(written), id)
    {
      ParsePrinted(cm, written, id);
    }
    if Parse(path).Account? {
      var segments := Split(path[|BASE|..]);
      PathTakenApart(path, segments);
      assert Prints(path, segments[0], segments[1], segments[2]);
    }
  }

  lemma PathTakenApart(path: string, segments: seq<string>)
    requires Parse(path).Account? && segments == Split(path[|BASE|..])
    ensures |segments| == 3 && Named(segments[0], segments[1], segments[2])
    ensures path == Printed(segments[0], segments[1], segments[2])
  {
    var s := path[|BASE|..];
    PiecesJoin(s);
    SlashedThree(segments);
    assert path == BASE + s;
    ValidChars('/', path[1..]);
    assert PathChars(path) by {
      assert forall i :: 1 <= i < |path| ==> path[i] == path[1..][i - 1];
    }
    PiecesAreWords(path, BASE, segments[0], segments[1], segments[2]);
  }

  lemma PiecesAreWords(path: string, base: string, cm: string, written: string, id: string)
    requires path == base + (cm + "/" + (written + "/" + id)) && PathChars(path)
    requires Lacks(cm, '/') && Lacks(written, '/') && Lacks(id, '/')
    ensures AllWord(cm) && AllWord(written) && AllWord(id) && path == base + cm + "/" + written + "/" + id
  {
    assert path == base + cm + ("/" + (written + "/" + id));
    PieceIsWord(base, cm, "/" + (written + "/" + id));
    assert path == (base + cm + "/") + written + ("/" + id);
    PieceIsWord(base + cm + "/", written, "/" + id);
    assert path == (base + cm + "/" + written + "/") + id + "";
    PieceIsWord(base + cm + "/" + written + "/", id, "");
  }

  lemma SlashedThree(ps: seq<string>)
    requires |ps| == 3
    ensures Slashed(ps) == ps[0] + "/" + (ps[1] + "/" + ps[2])
  {
    var qs := ps[1..];
    assert qs[0] == ps[1] && qs[1..] == [ps[2]];
    assert Slashed(qs[1..]) == ps[2];
    assert Slashed(qs) == ps[1] + "/" + ps[2];
  }

  predicate PathChar(c: char) {
    Word(c) || c == '/'
  }

  predicate PathChars(s: string) {
    forall i :: 0 <= i < |s| ==> PathChar(s[i])
  }

  lemma {:induction false} ValidChars(before: char, s: string)
    requires ValidAfter(before, s)
    ensures PathChars(s)
    decreases |s|
  {
    if s != "" {
      ValidChars(s[0], s[1..]);
      assert forall i :: 1 <= i < |s| ==> s[i] == s[1..][i - 1];
    }
  }

  lemma {:induction false} LacksByIndex(s: string, c: char)
    requires Lacks(s, c)
    ensures forall i :: 0 <= i < |s| ==> s[i] != c
  {
    if s != "" {
      LacksByIndex(s[1..], c);
      assert forall i :: 1 <= i < |s| ==> s[i] == s[1..][i - 1];
    }
  }

  lemma PieceIsWord(before: string, piece: string, after: string)
    requires PathChars(before + piece + after) && Lacks(piece, '/')
    ensures AllWord(piece)
  {
    var path := before + piece + after;
    LacksByIndex(piece, '/');
    forall i | 0 <= i < |piece|
      ensures Word(piece[i])
    {
      assert piece[i] == path[|before| + i];
    }
    AllWordByIndex(piece);
  }

  // ---- round trips

  /** A Telepathy protocol name: letters, digits and hyphens, starting with a letter. */
  predicate ProtocolName(p: string) {
    Letter(First(p)) && Hyphenated(p)
  }

  predicate Hyphenated(p: string) {
    p == "" || (p[0] != '_' && (Word(p[0]) || p[0] == '-') && Hyphenated(p[1..]))
  }

  lemma WordCons(c: char, s: string)
    requires Word(c) && AllWord(s)
    ensures AllWord([c] + s)
  {
    assert ([c] + s)[1..] == s;
  }

  lemma {:induction false} EscapesAreWords(p: string)
    requires Hyphenated(p)
    ensures AllWord(Escape(p)) && AllWord(EscapeLegacy(p)) && Lacks(p, '_')
  {
    if p != "" {
      EscapesAreWords(p[1..]);
      var f := EscapeLegacy(p[1..]);
      WordCons(if p[0] == '-' then '_' else p[0], Escape(p[1..]));
      if p[0] == '-' {
        WordCons('d', f);
        WordCons('2', ['d'] + f);
        WordCons('_', ['2'] + (['d'] + f));
        assert EscapeLegacy(p) == ['_'] + (['2'] + (['d'] + f));
      } else {
        WordCons(p[0], f);
      }
    }
  }

  predicate Identified(cm: string, id: string) {
    AllWord(cm) && Letter(First(cm)) && AllWord(id) && (Letter(First(id)) || First(id) == '_')
  }

  /** Printing with hyphens as underscores and parsing gives the same account back exactly when the
      protocol has no "-2d" in it. */
  lemma RoundTrip(cm: string, p: string, id: string)
    requires Identified(cm, id) && ProtocolName(p)
    ensures Parse(Printed(cm, Escape(p), id)) == Account(cm, p, id) <==> !Contains(p, "-2d")
  {
    EscapesAreWords(p);
    ParsePrinted(cm, Escape(p), id);
    EscapeUndone(p);
  }

  /** Printing the old way and parsing always gives the same account back. */
  lemma LegacyRoundTrip(cm: string, p: string, id: string)
    requires Identified(cm, id) && ProtocolName(p)
    ensures Parse(Printed(cm, EscapeLegacy(p), id)) == Account(cm, p, id)
  {
    EscapesAreWords(p);
    assert EscapeLegacy(p)[0] == p[0];
    ParsePrinted(cm, EscapeLegacy(p), id);
    LegacyUndone(p);
  }

  /** Such protocol names exist, and the parser reads another name for them. */
  lemma Misread(p: string)
    requires p == "a-2d"
    ensures ProtocolName(p) && Parse(Printed("cm", Escape(p), "id")) != Account("cm", p, "id")
  {
    assert p[1..] == "-2d" && "-2d"[1..] == "2d" && "2d"[1..] == "d" && "d"[1..] == "";
    assert StartsWith(p[1..], "-2d");
    AllWordByIndex("cm");
    AllWordByIndex("id");
    RoundTrip("cm", p, "id");
  }
}
