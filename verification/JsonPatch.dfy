/** JSON documents, RFC 6901 pointers and the `add` operation of RFC 6902. */
module JsonPatch {
  import opened Prelude
  import opened Text

  datatype Json =
    | Null
    | Bool(b: bool)
    | Num(n: int)
    | Str(s: string)
    | Arr(items: seq<Json>)
    | Obj(members: map<string, Json>)

  function Member(m: map<string, Json>, key: string): Json {
    if key in m then m[key] else Null
  }

  // ---- RFC 6901 ----

  /** Section 3: `~` is written `~0` and `/` is written `~1`. */
  function Escape(token: string): (r: string)
    ensures '/' !in r
  {
    if token == "" then ""
    else (if token[0] == '~' then "~0" else if token[0] == '/' then "~1" else [token[0]]) + Escape(token[1..])
  }

  /** Undoes `Escape`; a `~` not followed by `0` or `1` is a syntax error. */
  function Unescape(s: string): Option<string> {
    if s == "" then Some("")
    else if s[0] == '~' then
      if |s| < 2 || (s[1] != '0' && s[1] != '1') then None
      else match Unescape(s[2..])
        case None => None
        case Some(rest) => Some([if s[1] == '0' then '~' else '/'] + rest)
    else match Unescape(s[1..])
      case None => None
      case Some(rest) => Some([s[0]] + rest)
  }

  function UnescapeAll(pieces: seq<string>): Option<seq<string>> {
    if pieces == [] then Some([])
    else match (Unescape(pieces[0]), UnescapeAll(pieces[1..]))
      case (Some(token), Some(rest)) => Some([token] + rest)
      case _ => None
  }

  /** The reference tokens a pointer string stands for. */
  function ParsePointer(p: string): Option<seq<string>> {
    if p == "" then Some([])
    else if p[0] != '/' then None
    else UnescapeAll(Split(p[1..], '/'))
  }

  /** The pointer string for a list of reference tokens. */
  function Pointer(tokens: seq<string>): string {
    if tokens == [] then "" else "/" + Escape(tokens[0]) + Pointer(tokens[1..])
  }

  lemma {:induction false} UnescapeEscape(token: string)
    ensures Unescape(Escape(token)) == Some(token)
  {
    if token != "" {
      UnescapeEscape(token[1..]);
      var e := Escape(token);
      if token[0] == '~' || token[0] == '/' {
        assert e[2..] == Escape(token[1..]);
      } else {
        assert e[1..] == Escape(token[1..]);
      }
      assert token == [token[0]] + token[1..];
    }
  }

  /** Every list of tokens survives being written as a pointer string and read back. */
  lemma {:induction false} PointerRoundTrip(tokens: seq<string>)
    ensures ParsePointer(Pointer(tokens)) == Some(tokens)
  {
    if tokens != [] {
      PointerPieces(tokens);
      UnescapePieces(tokens);
    }
  }

  function EscapeAll(tokens: seq<string>): seq<string> {
    seq(|tokens|, i requires 0 <= i < |tokens| => Escape(tokens[i]))
  }

  lemma {:induction false} PointerPieces(tokens: seq<string>)
    requires tokens != []
    ensures Pointer(tokens)[0] == '/'
    ensures Split(Pointer(tokens)[1..], '/') == EscapeAll(tokens)
  {
    var head, rest := Escape(tokens[0]), tokens[1..];
    assert Pointer(tokens) == "/" + head + Pointer(rest);
    assert EscapeAll(tokens) == [head] + EscapeAll(rest);
    if rest == [] {
      assert Pointer(tokens)[1..] == head;
      SplitWhole(head, '/');
    } else {
      PointerPieces(rest);
      var tail := Pointer(rest)[1..];
      assert Pointer(tokens)[1..] == head + ['/'] + tail;
      SplitHead(head, tail, '/');
    }
  }

  lemma {:induction false} UnescapePieces(tokens: seq<string>)
    ensures UnescapeAll(EscapeAll(tokens)) == Some(tokens)
  {
    if tokens != [] {
      UnescapeEscape(tokens[0]);
      UnescapePieces(tokens[1..]);
      assert EscapeAll(tokens) == [Escape(tokens[0])] + EscapeAll(tokens[1..]);
      assert tokens == [tokens[0]] + tokens[1..];
    }
  }

  lemma {:induction false} PointerAppend(a: seq<string>, b: seq<string>)
    ensures Pointer(a + b) == Pointer(a) + Pointer(b)
  {
    if a == [] {
      assert a + b == b;
    } else {
      assert (a + b)[1..] == a[1..] + b;
      PointerAppend(a[1..], b);
    }
  }

  predicate Plain(token: string) {
    '~' !in token && '/' !in token
  }

  lemma {:induction false} EscapePlain(token: string)
    requires Plain(token)
    ensures Escape(token) == token
  {
    if token != "" {
      EscapePlain(token[1..]);
    }
  }

  lemma {:induction false} EscapeAppend(a: string, b: string)
    ensures Escape(a + b) == Escape(a) + Escape(b)
  {
    if a == "" {
      assert a + b == b;
    } else {
      assert (a + b)[1..] == a[1..] + b;
      EscapeAppend(a[1..], b);
    }
  }

  lemma PointerSnocEscaped(tokens: seq<string>, token: string)
    ensures Pointer(tokens + [token]) == Pointer(tokens) + ("/" + Escape(token))
  {
    PointerAppend(tokens, [token]);
    assert Pointer([token]) == "/" + Escape(token) + Pointer([token][1..]);
  }

  /** A plain token is appended as it is. */
  lemma PointerSnoc(tokens: seq<string>, token: string)
    requires Plain(token)
    ensures Pointer(tokens + [token]) == Pointer(tokens) + ("/" + token)
  {
    EscapePlain(token);
    PointerSnocEscaped(tokens, token);
  }

  /** Section 4: array indices are `0` or digits without a leading zero. */
  function ParseIndex(token: string): Option<nat> {
    if token == "" || !AllDigits(token) || (|token| > 1 && token[0] == '0') then None
    else Some(DigitsValue(token))
  }

  // ---- RFC 6902 ----

  datatype Op = Add(path: string, value: Json)

  /** Section 4.1 on a parsed pointer. `None` is the error outcome. */
  function AddAt(doc: Json, tokens: seq<string>, value: Json): Option<Json>
    decreases |tokens|
  {
    if tokens == [] then Some(value)
    else match doc
      case Obj(m) =>
        if |tokens| == 1 then Some(Obj(m[tokens[0] := value]))
        else if tokens[0] !in m then None
        else (match AddAt(m[tokens[0]], tokens[1..], value)
              case None => None
              case Some(child) => Some(Obj(m[tokens[0] := child])))
      case Arr(xs) =>
        if tokens == ["-"] then Some(Arr(xs + [value]))
        else (match ParseIndex(tokens[0])
              case None => None
              case Some(i) =>
                if |tokens| == 1 then
                  if i <= |xs| then Some(Arr(xs[..i] + [value] + xs[i..])) else None
                else if i >= |xs| then None
                else match AddAt(xs[i], tokens[1..], value)
                     case None => None
                     case Some(child) => Some(Arr(xs[i := child])))
      case _ => None
  }

  function ApplyOp(doc: Json, op: Op): Option<Json> {
    match ParsePointer(op.path)
    case None => None
    case Some(tokens) => AddAt(doc, tokens, op.value)
  }

  /** Section 5: operations run in order and one failure fails the whole patch. */
  function Apply(doc: Json, ops: seq<Op>): Option<Json>
    decreases |ops|
  {
    if ops == [] then Some(doc)
    else match ApplyOp(doc, ops[0])
      case None => None
      case Some(next) => Apply(next, ops[1..])
  }

  lemma {:induction false} ApplyAppend(doc: Json, a: seq<Op>, b: seq<Op>)
    ensures Apply(doc, a + b) ==
            match Apply(doc, a) { case None => None case Some(mid) => Apply(mid, b) }
    decreases |a|
  {
    if a == [] {
      assert a + b == b;
    } else {
      assert (a + b)[1..] == a[1..] + b;
      match ApplyOp(doc, a[0]) {
        case None =>
        case Some(next) => ApplyAppend(next, a[1..], b);
      }
    }
  }

  lemma ApplyOne(doc: Json, tokens: seq<string>, value: Json)
    ensures Apply(doc, [Add(Pointer(tokens), value)]) == AddAt(doc, tokens, value)
  {
    PointerRoundTrip(tokens);
    var ops := [Add(Pointer(tokens), value)];
    match ApplyOp(doc, ops[0]) {
      case None =>
      case Some(next) => assert Apply(next, ops[1..]) == Some(next);
    }
  }

  // ---- operations as JSON values ----

  function OpValue(op: Op): Json {
    Obj(map["op" := Str("add"), "path" := Str(op.path), "value" := op.value])
  }

  function OpValues(ops: seq<Op>): (r: seq<Json>)
    ensures |r| == |ops|
  {
    seq(|ops|, i requires 0 <= i < |ops| => OpValue(ops[i]))
  }

  /** Reading one operation: it must name `add`, carry a value and hold a well-formed pointer. */
  function ParseOp(j: Json): Option<Op> {
    match j
    case Obj(m) =>
      if "op" in m && m["op"] == Str("add") && "path" in m && m["path"].Str? && "value" in m
         && ParsePointer(m["path"].s).Some?
      then Some(Add(m["path"].s, m["value"]))
      else None
    case _ => None
  }

  function ParsePatch(values: seq<Json>): Option<seq<Op>> {
    if values == [] then Some([])
    else match (ParseOp(values[0]), ParsePatch(values[1..]))
      case (Some(op), Some(rest)) => Some([op] + rest)
      case _ => None
  }

  lemma {:induction false} ParsePatchValues(ops: seq<Op>)
    requires forall op :: op in ops ==> ParsePointer(op.path).Some?
    ensures ParsePatch(OpValues(ops)) == Some(ops)
  {
    if ops != [] {
      ParsePatchValues(ops[1..]);
      assert OpValues(ops) == [OpValue(ops[0])] + OpValues(ops[1..]);
      assert ops == [ops[0]] + ops[1..];
      assert ParseOp(OpValue(ops[0])) == Some(ops[0]);
    }
  }

  // ---- navigating and replacing ----

  /** The node at a pointer, when there is one. */
  function NodeAt(doc: Json, tokens: seq<string>): Option<Json>
    decreases |tokens|
  {
    if tokens == [] then Some(doc)
    else match doc
      case Obj(m) => if tokens[0] in m then NodeAt(m[tokens[0]], tokens[1..]) else None
      case Arr(xs) =>
        (match ParseIndex(tokens[0])
         case None => None
         case Some(i) => if i < |xs| then NodeAt(xs[i], tokens[1..]) else None)
      case _ => None
  }

  lemma MemberNode(m: map<string, Json>, key: string)
    ensures NodeAt(Obj(m), [key]) == if key in m then Some(m[key]) else None
  {
    assert [key][1..] == [];
  }

  /** `doc` with the node at `tokens` replaced and everything else as it was. */
  function Replace(doc: Json, tokens: seq<string>, node: Json): (r: Json)
    requires NodeAt(doc, tokens).Some?
    ensures NodeAt(r, tokens) == Some(node)
    decreases |tokens|
  {
    if tokens == [] then node
    else match doc
      case Obj(m) => Obj(m[tokens[0] := Replace(m[tokens[0]], tokens[1..], node)])
      case Arr(xs) =>
        var i := ParseIndex(tokens[0]).value;
        Arr(xs[i := Replace(xs[i], tokens[1..], node)])
  }

  lemma {:induction false} ReplaceTwice(doc: Json, tokens: seq<string>, a: Json, b: Json)
    requires NodeAt(doc, tokens).Some?
    ensures Replace(Replace(doc, tokens, a), tokens, b) == Replace(doc, tokens, b)
    decreases |tokens|
  {
    if tokens != [] {
      match doc {
        case Obj(m) =>
          ReplaceTwice(m[tokens[0]], tokens[1..], a, b);
        case Arr(xs) =>
          var i := ParseIndex(tokens[0]).value;
          ReplaceTwice(xs[i], tokens[1..], a, b);
          var mid := Replace(xs[i], tokens[1..], a);
          assert xs[i := mid][i := Replace(mid, tokens[1..], b)] == xs[i := Replace(xs[i], tokens[1..], b)];
      }
    }
  }

  lemma {:induction false} ReplaceSame(doc: Json, tokens: seq<string>)
    requires NodeAt(doc, tokens).Some?
    ensures Replace(doc, tokens, NodeAt(doc, tokens).value) == doc
    decreases |tokens|
  {
    if tokens != [] {
      match doc {
        case Obj(m) =>
          ReplaceSame(m[tokens[0]], tokens[1..]);
          assert m[tokens[0] := m[tokens[0]]] == m;
        case Arr(xs) =>
          var i := ParseIndex(tokens[0]).value;
          ReplaceSame(xs[i], tokens[1..]);
          assert xs[i := xs[i]] == xs;
      }
    }
  }

  /** Adding below a node is adding inside that node. */
  lemma {:induction false} AddBelow(doc: Json, prefix: seq<string>, rest: seq<string>, value: Json)
    requires rest != []
    ensures AddAt(doc, prefix + rest, value) ==
            match NodeAt(doc, prefix) {
              case None => None
              case Some(node) =>
                match AddAt(node, rest, value) {
                  case None => None
                  case Some(node') => Some(Replace(doc, prefix, node'))
                }
            }
    decreases |prefix|
  {
    if prefix == [] {
      assert prefix + rest == rest;
    } else {
      var tokens := prefix + rest;
      assert tokens[0] == prefix[0] && tokens[1..] == prefix[1..] + rest && |tokens| > 1;
      match doc {
        case Obj(m) =>
          if tokens[0] in m {
            AddBelow(m[tokens[0]], prefix[1..], rest, value);
          }
        case Arr(xs) =>
          match ParseIndex(tokens[0]) {
            case None =>
            case Some(i) =>
              if i < |xs| {
                AddBelow(xs[i], prefix[1..], rest, value);
              }
          }
        case _ =>
      }
    }
  }
}
