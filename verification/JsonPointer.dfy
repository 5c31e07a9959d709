/**
 The local reference syntax of the importer: "#/" followed by escaped object
 keys joined with "/" (sections 3 and 4 of RFC 6901, without percent-encoding).
 */
module JsonPointer {
  import opened Common
  import opened Json

  /** str.split("/") */
  function Split(s: string): (parts: seq<string>)
    ensures |parts| >= 1
  {
    if s == "" then [""]
    else
      var rest := Split(s[1..]);
      if s[0] == '/' then [""] + rest else [[s[0]] + rest[0]] + rest[1..]
  }

  /** str.replace for a two-character pattern: left to right, no overlaps. */
  function Replace(s: string, a: char, b: char, c: char): string {
    if s == "" then ""
    else if |s| >= 2 && s[0] == a && s[1] == b then [c] + Replace(s[2..], a, b, c)
    else [s[0]] + Replace(s[1..], a, b, c)
  }

  /** The importer's decoding of one reference token: "~1" first, then "~0". */
  function Unescape(token: string): string {
    Replace(Replace(token, '~', '1', '/'), '~', '0', '~')
  }

  /** A single left-to-right pass over the two escape sequences. */
  function Decode(token: string): string {
    if token == "" then ""
    else if |token| >= 2 && token[0] == '~' && token[1] == '1' then "/" + Decode(token[2..])
    else if |token| >= 2 && token[0] == '~' && token[1] == '0' then "~" + Decode(token[2..])
    else [token[0]] + Decode(token[1..])
  }

  function Escape(key: string): string {
    if key == "" then ""
    else
      (if key[0] == '~' then "~0" else if key[0] == '/' then "~1" else [key[0]]) + Escape(key[1..])
  }

  function Join(tokens: seq<string>): string
    requires |tokens| >= 1
  {
    if |tokens| == 1 then tokens[0] else tokens[0] + "/" + Join(tokens[1..])
  }

  function EscapeAll(path: seq<string>): (tokens: seq<string>)
    ensures |tokens| == |path|
  {
    if path == [] then [] else [Escape(path[0])] + EscapeAll(path[1..])
  }

  /** The reference that names a path of object keys. */
  function ReferenceTo(path: seq<string>): (reference: string)
    requires path != []
    ensures |reference| >= 2
  {
    "#/" + Join(EscapeAll(path))
  }

  /** The node that a path of object keys leads to. */
  function At(node: Json, path: seq<string>): Option<Json>
    decreases |path|
  {
    if path == [] then Some(node)
    else if !node.Obj? then None
    else match Get(node.fields, path[0])
      case None => None
      case Some(child) => At(child, path[1..])
  }

  function Unescaped(tokens: seq<string>): (path: seq<string>)
    ensures |path| == |tokens|
    ensures forall i :: 0 <= i < |path| ==> path[i] == Unescape(tokens[i])
  {
    seq(|tokens|, i requires 0 <= i < |tokens| => Unescape(tokens[i]))
  }

  /** The node a reference denotes, as a function; a miss is an invalid document. */
  function Lookup(document: Fields, reference: string): Option<Json>
    requires |reference| >= 2
  {
    At(Obj(document), Unescaped(Split(reference[2..])))
  }

  /** The loop of the importer: walk down from the document one token at a time. */
  method ResolvePointer(document: Fields, reference: string) returns (found: Option<Json>)
    requires |reference| >= 2
    ensures found == Lookup(document, reference)
  {
    var current := Obj(document);
    var parts := Split(reference[2..]);
    ghost var path := Unescaped(parts);
    for k := 0 to |parts|
      invariant At(Obj(document), path) == At(current, path[k..])
    {
      var part := Unescape(parts[k]);
      assert path[k..][0] == part && path[k..][1..] == path[k + 1..];
      if !current.Obj? {
        return None;
      }
      var child := Get(current.fields, part);
      if child.None? {
        return None;
      }
      current := child.value;
    }
    return Some(current);
  }

  /** Undoing "~1" before "~0" by two whole-string replacements is one-pass decoding, on every token. */
  lemma {:induction false} UnescapeIsOnePass(token: string)
    ensures Unescape(token) == Decode(token)
  {
    if token == "" {
    } else if |token| >= 2 && token[0] == '~' && token[1] == '1' {
      UnescapeIsOnePass(token[2..]);
    } else if |token| >= 2 && token[0] == '~' && token[1] == '0' {
      UnescapeIsOnePass(token[2..]);
      var tail := Replace(token[2..], '~', '1', '/');
      assert token[1..][1..] == token[2..];
      assert Replace(token[1..], '~', '1', '/') == "0" + tail;
      assert Replace(token, '~', '1', '/') == "~" + ("0" + tail);
      assert ("~" + ("0" + tail))[2..] == tail;
    } else {
      UnescapeIsOnePass(token[1..]);
      var tail := Replace(token[1..], '~', '1', '/');
      assert Replace(token, '~', '1', '/') == [token[0]] + tail;
      assert ([token[0]] + tail)[1..] == tail;
    }
  }

  /** The other order is wrong: the token "~01", which names the key "~1", would decode to "/". */
  lemma UndoingTildeFirstIsWrong()
    ensures Unescape("~01") == "~1" == Decode("~01")
    ensures Replace(Replace("~01", '~', '0', '~'), '~', '1', '/') == "/"
  {
    UnescapeIsOnePass("~01");
    assert "~01"[2..] == "1" && "1"[1..] == "" && "~1"[2..] == "";
    assert Decode("1") == "1";
    assert Replace("1", '~', '0', '~') == "1";
    assert Replace("~01", '~', '0', '~') == "~1";
    assert Replace("~1", '~', '1', '/') == "/" + Replace("", '~', '1', '/');
  }

  lemma {:induction false} DecodeInvertsEscape(key: string)
    ensures Decode(Escape(key)) == key
    ensures '/' !in Escape(key)
  {
    if key != "" {
      DecodeInvertsEscape(key[1..]);
      var rest := Escape(key[1..]);
      var head := if key[0] == '~' then "~0" else if key[0] == '/' then "~1" else [key[0]];
      assert (head + rest)[|head|..] == rest;
    }
  }

  lemma {:induction false} SplitToken(token: string)
    requires '/' !in token
    ensures Split(token) == [token]
  {
    if token != "" {
      SplitToken(token[1..]);
      assert [token[0]] + token[1..] == token;
    }
  }

  lemma {:induction false} SplitPrefix(token: string, rest: string)
    requires '/' !in token
    ensures Split(token + "/" + rest) == [token] + Split(rest)
  {
    var s := token + "/" + rest;
    if token == "" {
      assert s[1..] == rest;
    } else {
      SplitPrefix(token[1..], rest);
      assert s[1..] == token[1..] + "/" + rest;
      assert s[0] == token[0];
      assert [token[0]] + token[1..] == token;
      assert Split(s) == [[token[0]] + token[1..]] + Split(rest);
    }
  }

  lemma {:induction false} SplitInvertsJoin(tokens: seq<string>)
    requires |tokens| >= 1
    requires forall t <- tokens :: '/' !in t
    ensures Split(Join(tokens)) == tokens
  {
    if |tokens| == 1 {
      SplitToken(tokens[0]);
    } else {
      SplitInvertsJoin(tokens[1..]);
      SplitPrefix(tokens[0], Join(tokens[1..]));
    }
  }

  lemma {:induction false} EscapeAllAt(path: seq<string>, i: nat)
    requires i < |path|
    ensures EscapeAll(path)[i] == Escape(path[i])
  {
    if i > 0 {
      EscapeAllAt(path[1..], i - 1);
    }
  }

  /**
   Round trip: the reference built from any non-empty path of object keys
   resolves to exactly the node at that path, or misses when there is none.
   */
  lemma ReferenceRoundTrip(document: Fields, path: seq<string>)
    requires path != []
    ensures Lookup(document, ReferenceTo(path)) == At(Obj(document), path)
  {
    var tokens := EscapeAll(path);
    forall i | 0 <= i < |path| ensures '/' !in tokens[i] && Unescape(tokens[i]) == path[i] {
      EscapeAllAt(path, i);
      DecodeInvertsEscape(path[i]);
      UnescapeIsOnePass(tokens[i]);
    }
    SplitInvertsJoin(tokens);
    assert ReferenceTo(path)[2..] == Join(tokens);
    assert Unescaped(tokens) == path;
  }
}
