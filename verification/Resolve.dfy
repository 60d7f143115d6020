/** Annotation resolution: pod, then owning workload, then ServiceAccount, then namespace. */
module Resolve {
  import opened Prelude
  import opened Text
  import opened Annotations

  type Scope = Option<map<string, string>>

  function Lookup(scope: Scope, key: string): Option<string> {
    match scope
    case None => None
    case Some(m) => if key in m then Some(m[key]) else None
  }

  datatype AnnotationSet = AnnotationSet(pod: Scope, owner: Scope, serviceAccount: Scope, namespace: Scope) {
    function Ordered(): seq<Scope> {
      [pod, owner, serviceAccount, namespace]
    }

    function FirstExplicitBool(key: string): Option<bool> {
      Scan(Ordered(), key, ReadBool)
    }

    function FirstNonEmpty(key: string): (r: Option<string>)
      ensures r.Some? ==> r.value != "" && Trimmed(r.value)
    {
      ScanNonEmpty(Ordered(), key);
      Scan(Ordered(), key, ReadNonEmpty)
    }

    /** The first non-empty value, parsed; a value that does not parse ends the search. */
    function FirstI64(key: string): Option<int> {
      match FirstNonEmpty(key)
      case None => None
      case Some(s) => ParseI64(s)
    }
  }

  /** An explicit boolean; any other text is passed over. */
  function ReadBool(raw: string): Option<bool> {
    var t := Lower(Trim(raw));
    if t == "true" then Some(true) else if t == "false" then Some(false) else None
  }

  function ReadNonEmpty(raw: string): (r: Option<string>)
    ensures r.Some? ==> r.value != "" && Trimmed(r.value)
  {
    var t := Trim(raw);
    TrimFacts(raw);
    if t != "" then Some(t) else None
  }

  /** What one scope says about a key, when it says something usable. */
  function Says<T>(scope: Scope, key: string, read: string -> Option<T>): Option<T> {
    match Lookup(scope, key)
    case None => None
    case Some(raw) => read(raw)
  }

  /** The precedence scan shared by every kind of value, over any number of scopes. */
  function Scan<T>(scopes: seq<Scope>, key: string, read: string -> Option<T>): Option<T> {
    if scopes == [] then None
    else match Says(scopes[0], key, read)
      case Some(v) => Some(v)
      case None => Scan(scopes[1..], key, read)
  }

  lemma {:induction false} ScanNonEmpty(scopes: seq<Scope>, key: string)
    ensures var r := Scan(scopes, key, ReadNonEmpty); r.Some? ==> r.value != "" && Trimmed(r.value)
  {
    if scopes != [] {
      ScanNonEmpty(scopes[1..], key);
    }
  }

  /** The narrowest scope that says something. */
  ghost predicate Decides<T>(scopes: seq<Scope>, key: string, read: string -> Option<T>, i: int) {
    && 0 <= i < |scopes|
    && Says(scopes[i], key, read).Some?
    && forall j :: 0 <= j < i ==> Says(scopes[j], key, read).None?
  }

  /** The scan answers with the narrowest usable value, and fails only when there is none. */
  lemma {:induction false} ScanIsLeast<T>(scopes: seq<Scope>, key: string, read: string -> Option<T>)
    ensures Scan(scopes, key, read).Some? <==> exists i :: Decides(scopes, key, read, i)
    ensures forall i :: Decides(scopes, key, read, i) ==> Scan(scopes, key, read) == Says(scopes[i], key, read)
    ensures Scan(scopes, key, read).None? <==> forall i :: 0 <= i < |scopes| ==> Says(scopes[i], key, read).None?
  {
    if scopes != [] {
      var rest := scopes[1..];
      ScanIsLeast(rest, key, read);
      if Says(scopes[0], key, read).Some? {
        assert Decides(scopes, key, read, 0);
      } else {
        forall i | Decides(scopes, key, read, i)
          ensures Decides(rest, key, read, i - 1)
        {
          assert forall j :: 0 <= j < i - 1 ==> rest[j] == scopes[j + 1];
        }
        forall i | Decides(rest, key, read, i)
          ensures Decides(scopes, key, read, i + 1)
        {
          forall j | 0 <= j < i + 1
            ensures Says(scopes[j], key, read).None?
          {
            assert j > 0 ==> scopes[j] == rest[j - 1];
          }
        }
        assert forall i :: 0 <= i < |rest| ==> rest[i] == scopes[i + 1];
        assert forall i :: 0 < i < |scopes| ==> scopes[i] == rest[i - 1];
      }
    }
  }

  /** Once the narrower scopes decide, broader ones are irrelevant; until then they are all that counts. */
  lemma {:induction false} ScanBroader<T>(narrow: seq<Scope>, broad: seq<Scope>, key: string, read: string -> Option<T>)
    ensures Scan(narrow + broad, key, read) ==
            if Scan(narrow, key, read).Some? then Scan(narrow, key, read) else Scan(broad, key, read)
  {
    if narrow == [] {
      assert narrow + broad == broad;
    } else {
      assert (narrow + broad)[1..] == narrow[1..] + broad;
      ScanBroader(narrow[1..], broad, key, read);
    }
  }

  // ---- what the queries answer, told from the annotation texts ----

  /** The scope carries the key, and its text without surrounding whitespace is the word in any ASCII case. */
  ghost predicate Carries(scope: Scope, key: string, word: string) {
    scope.Some? && key in scope.value && exists t :: Stripped(scope.value[key], t) && Spells(t, word)
  }

  /** The scope carries the key, and what is left of its text without surrounding whitespace is `v`. */
  ghost predicate Holds(scope: Scope, key: string, v: string) {
    scope.Some? && key in scope.value && v != "" && Stripped(scope.value[key], v)
  }

  /** The scope does not carry the key, or carries only whitespace. */
  ghost predicate Silent(scope: Scope, key: string) {
    scope.None? || key !in scope.value || Blank(scope.value[key])
  }

  /** The narrowest scope that spells `true` or `false` spells `word`. */
  ghost predicate FirstCarries(scopes: seq<Scope>, key: string, word: string) {
    exists i :: 0 <= i < |scopes| && Carries(scopes[i], key, word)
                && forall j :: 0 <= j < i ==> !Carries(scopes[j], key, "true") && !Carries(scopes[j], key, "false")
  }

  /** The narrowest scope that is not silent holds `v`. */
  ghost predicate FirstHolds(scopes: seq<Scope>, key: string, v: string) {
    exists i :: 0 <= i < |scopes| && Holds(scopes[i], key, v) && forall j :: 0 <= j < i ==> Silent(scopes[j], key)
  }

  /** `true` and `false` in any case are explicit; every other text is neither. */
  lemma ReadBoolExactly(raw: string)
    ensures ReadBool(raw) == Some(true) <==> exists t :: Stripped(raw, t) && Spells(t, "true")
    ensures ReadBool(raw) == Some(false) <==> exists t :: Stripped(raw, t) && Spells(t, "false")
  {
    var t := Trim(raw);
    TrimExactly(raw, t);
    LowerSpells(t, "true");
    LowerSpells(t, "false");
    assert |"true"| != |"false"|;
    forall u | Stripped(raw, u)
      ensures u == t
    {
      TrimExactly(raw, u);
    }
  }

  lemma ReadNonEmptyExactly(raw: string, v: string)
    ensures ReadNonEmpty(raw) == Some(v) <==> v != "" && Stripped(raw, v)
    ensures ReadNonEmpty(raw) == None <==> Blank(raw)
  {
    TrimExactly(raw, v);
    TrimExactly(raw, Trim(raw));
  }

  lemma SaysExactly(scope: Scope, key: string)
    ensures Says(scope, key, ReadBool) == Some(true) <==> Carries(scope, key, "true")
    ensures Says(scope, key, ReadBool) == Some(false) <==> Carries(scope, key, "false")
    ensures forall v :: Says(scope, key, ReadNonEmpty) == Some(v) <==> Holds(scope, key, v)
    ensures Says(scope, key, ReadNonEmpty) == None <==> Silent(scope, key)
  {
    if scope.Some? && key in scope.value {
      var raw := scope.value[key];
      ReadBoolExactly(raw);
      ReadNonEmptyExactly(raw, Trim(raw));
      forall v
        ensures ReadNonEmpty(raw) == Some(v) <==> v != "" && Stripped(raw, v)
      {
        ReadNonEmptyExactly(raw, v);
      }
    }
  }

  lemma DecidesExactly(scopes: seq<Scope>, key: string, word: string, i: int)
    requires word == "true" || word == "false"
    ensures Decides(scopes, key, ReadBool, i) && Says(scopes[i], key, ReadBool) == Some(word == "true") <==>
            && 0 <= i < |scopes| && Carries(scopes[i], key, word)
            && forall j :: 0 <= j < i ==> !Carries(scopes[j], key, "true") && !Carries(scopes[j], key, "false")
  {
    if 0 <= i < |scopes| {
      SaysExactly(scopes[i], key);
      assert "true" != "false";
      forall j | 0 <= j < i
        ensures Says(scopes[j], key, ReadBool).None? <==> !Carries(scopes[j], key, "true") && !Carries(scopes[j], key, "false")
      {
        SaysExactly(scopes[j], key);
      }
    }
  }

  lemma ScanBoolExactly(scopes: seq<Scope>, key: string, word: string)
    requires word == "true" || word == "false"
    ensures Scan(scopes, key, ReadBool) == Some(word == "true") <==> FirstCarries(scopes, key, word)
  {
    ScanIsLeast(scopes, key, ReadBool);
    forall i
      ensures Decides(scopes, key, ReadBool, i) && Says(scopes[i], key, ReadBool) == Some(word == "true") <==>
              && 0 <= i < |scopes| && Carries(scopes[i], key, word)
              && forall j :: 0 <= j < i ==> !Carries(scopes[j], key, "true") && !Carries(scopes[j], key, "false")
    {
      DecidesExactly(scopes, key, word, i);
    }
  }

  lemma ScanNonEmptyExactly(scopes: seq<Scope>, key: string, v: string)
    ensures Scan(scopes, key, ReadNonEmpty) == Some(v) <==> FirstHolds(scopes, key, v)
    ensures Scan(scopes, key, ReadNonEmpty) == None <==> forall i :: 0 <= i < |scopes| ==> Silent(scopes[i], key)
  {
    forall i | 0 <= i < |scopes|
      ensures Says(scopes[i], key, ReadNonEmpty) == Some(v) <==> Holds(scopes[i], key, v)
      ensures Says(scopes[i], key, ReadNonEmpty) == None <==> Silent(scopes[i], key)
    {
      SaysExactly(scopes[i], key);
    }
    ScanIsLeast(scopes, key, ReadNonEmpty);
    if FirstHolds(scopes, key, v) {
      var i :| 0 <= i < |scopes| && Holds(scopes[i], key, v) && forall j :: 0 <= j < i ==> Silent(scopes[j], key);
      assert Decides(scopes, key, ReadNonEmpty, i);
    }
  }

  /** Both queries of an annotation set, on the texts of its four scopes, narrowest first. */
  lemma QueriesExactly(a: AnnotationSet, key: string)
    ensures var scopes := [a.pod, a.owner, a.serviceAccount, a.namespace];
            && (a.FirstExplicitBool(key) == Some(true) <==> FirstCarries(scopes, key, "true"))
            && (a.FirstExplicitBool(key) == Some(false) <==> FirstCarries(scopes, key, "false"))
            && (forall v :: a.FirstNonEmpty(key) == Some(v) <==> FirstHolds(scopes, key, v))
            && (a.FirstNonEmpty(key) == None <==> forall i :: 0 <= i < 4 ==> Silent(scopes[i], key))
  {
    assert "true" != "false";
    ScanBoolExactly(a.Ordered(), key, "true");
    ScanBoolExactly(a.Ordered(), key, "false");
    ScanNonEmptyExactly(a.Ordered(), key, "");
    forall v
      ensures a.FirstNonEmpty(key) == Some(v) <==> FirstHolds(a.Ordered(), key, v)
    {
      ScanNonEmptyExactly(a.Ordered(), key, v);
    }
  }

  /** A scope that spells `false`, with no narrower scope spelling `true`, suppresses every broader `true`. */
  lemma NarrowFalseWins(a: AnnotationSet, key: string, i: nat)
    requires i < 4 && Carries([a.pod, a.owner, a.serviceAccount, a.namespace][i], key, "false")
    requires forall j :: 0 <= j < i ==> !Carries([a.pod, a.owner, a.serviceAccount, a.namespace][j], key, "true")
    ensures a.FirstExplicitBool(key) == Some(false)
  {
    forall j: nat | j <= i
      ensures j < i ==> Says(a.Ordered()[j], key, ReadBool) != Some(true)
      ensures j == i ==> Says(a.Ordered()[j], key, ReadBool) == Some(false)
    {
      SaysExactly(a.Ordered()[j], key);
    }
    Unanimous(a.Ordered(), key, ReadBool, i, false);
  }

  /** The plain texts `true` and `false`. */
  lemma PlainTexts(scope: Scope, key: string)
    requires scope.Some? && key in scope.value
    ensures scope.value[key] == "true" ==> Carries(scope, key, "true")
    ensures scope.value[key] == "false" ==> Carries(scope, key, "false")
  {
    var raw := scope.value[key];
    if raw == "true" || raw == "false" {
      assert BlankOutside(raw, 0, |raw|) && raw[0..|raw|] == raw;
      assert Stripped(raw, raw);
    }
  }

  lemma {:induction false} Unanimous<T>(scopes: seq<Scope>, key: string, read: string -> Option<T>, i: nat, v: T)
    requires i < |scopes| && Says(scopes[i], key, read) == Some(v)
    requires forall j :: 0 <= j < i ==> Says(scopes[j], key, read).None? || Says(scopes[j], key, read) == Some(v)
    ensures Scan(scopes, key, read) == Some(v)
  {
    if Says(scopes[0], key, read).None? {
      Unanimous(scopes[1..], key, read, i - 1, v);
    }
  }

  /** The order of the four scopes. */
  lemma PodOwnerAccountNamespace<T>(a: AnnotationSet, key: string, read: string -> Option<T>)
    ensures Scan(a.Ordered(), key, read) ==
            if Says(a.pod, key, read).Some? then Says(a.pod, key, read)
            else if Says(a.owner, key, read).Some? then Says(a.owner, key, read)
            else if Says(a.serviceAccount, key, read).Some? then Says(a.serviceAccount, key, read)
            else Says(a.namespace, key, read)
  {
    var scopes := a.Ordered();
    assert scopes[3..][1..] == [] && scopes[2..][1..] == scopes[3..] && scopes[1..][1..] == scopes[2..];
    assert Scan(scopes[3..], key, read) == Says(a.namespace, key, read);
    assert Scan(scopes[2..], key, read) ==
           if Says(a.serviceAccount, key, read).Some? then Says(a.serviceAccount, key, read) else Says(a.namespace, key, read);
  }

  // ---- native fallback ----

  function EnabledWithNative(a: AnnotationSet, id: ProviderId, nativePresent: bool): bool {
    a.FirstExplicitBool(InjectKey(id)).GetOr(nativePresent)
  }

  function NativeOr(a: AnnotationSet, cwiiKey: string, nativeKey: string, nativeOn: bool): (r: Option<string>)
    ensures r.Some? ==> r.value != "" && Trimmed(r.value)
  {
    match a.FirstNonEmpty(cwiiKey)
    case Some(v) => Some(v)
    case None => if nativeOn then a.FirstNonEmpty(nativeKey) else None
  }

  /**
   * The native annotation is consulted exactly when no scope carries a usable cwii value: otherwise any
   * native scopes, and the compatibility switch itself, leave the result alone.
   */
  lemma NativeOnlyAsFallback(a: AnnotationSet, b: AnnotationSet, key: string, nativeKey: string, on: bool, on': bool)
    requires forall i :: 0 <= i < 4 ==> Lookup(a.Ordered()[i], key) == Lookup(b.Ordered()[i], key)
    requires Usable(a, key)
    ensures NativeOr(a, key, nativeKey, on) == NativeOr(b, key, nativeKey, on') == a.FirstNonEmpty(key)
    ensures a.FirstNonEmpty(key).Some?
  {
    ScanReadsOnlyKey(a.Ordered(), b.Ordered(), key, ReadNonEmpty);
    UsableExactly(a, key);
  }

  /** Some scope carries more than whitespace. */
  ghost predicate Usable(a: AnnotationSet, key: string) {
    exists i :: 0 <= i < 4 && !Silent([a.pod, a.owner, a.serviceAccount, a.namespace][i], key)
  }

  lemma UsableExactly(a: AnnotationSet, key: string)
    ensures a.FirstNonEmpty(key).Some? <==> Usable(a, key)
  {
    QueriesExactly(a, key);
  }

  /**
   * A setting with a native fallback: the first text under its own key; without any, and only if native
   * annotations are honoured, the first text under the native key; nothing otherwise.
   */
  lemma NativeOrExactly(a: AnnotationSet, key: string, nativeKey: string, on: bool)
    ensures var scopes := [a.pod, a.owner, a.serviceAccount, a.namespace];
            && (forall v :: NativeOr(a, key, nativeKey, on) == Some(v) <==>
                            FirstHolds(scopes, key, v) || (on && !Usable(a, key) && FirstHolds(scopes, nativeKey, v)))
            && (NativeOr(a, key, nativeKey, on) == None <==> !Usable(a, key) && !(on && Usable(a, nativeKey)))
  {
    QueriesExactly(a, key);
    QueriesExactly(a, nativeKey);
    UsableExactly(a, key);
    UsableExactly(a, nativeKey);
  }

  // ---- what a scan depends on ----

  /** Two annotation sets that hold the same values under the given keys, scope by scope. */
  ghost predicate AgreeOn(a: AnnotationSet, b: AnnotationSet, keys: set<string>) {
    forall i, k :: 0 <= i < 4 && k in keys ==> Lookup(a.Ordered()[i], k) == Lookup(b.Ordered()[i], k)
  }

  lemma {:induction false} ScanReadsOnlyKey<T>(a: seq<Scope>, b: seq<Scope>, key: string, read: string -> Option<T>)
    requires |a| == |b|
    requires forall i :: 0 <= i < |a| ==> Lookup(a[i], key) == Lookup(b[i], key)
    ensures Scan(a, key, read) == Scan(b, key, read)
  {
    if a != [] {
      assert Lookup(a[0], key) == Lookup(b[0], key);
      ScanReadsOnlyKey(a[1..], b[1..], key, read);
    }
  }

  /** Every query the providers make, for one key. */
  lemma QueriesReadOnlyKeys(a: AnnotationSet, b: AnnotationSet, keys: set<string>)
    requires AgreeOn(a, b, keys)
    ensures forall k :: k in keys ==> a.FirstExplicitBool(k) == b.FirstExplicitBool(k)
    ensures forall k :: k in keys ==> a.FirstNonEmpty(k) == b.FirstNonEmpty(k)
    ensures forall k :: k in keys ==> a.FirstI64(k) == b.FirstI64(k)
  {
    forall k | k in keys
      ensures a.FirstExplicitBool(k) == b.FirstExplicitBool(k)
      ensures a.FirstNonEmpty(k) == b.FirstNonEmpty(k)
    {
      ScanReadsOnlyKey(a.Ordered(), b.Ordered(), k, ReadBool);
      ScanReadsOnlyKey(a.Ordered(), b.Ordered(), k, ReadNonEmpty);
    }
  }

  // ---- the integer query and its documentation ----

  function ReadI64(raw: string): Option<int> {
    ParseI64(Trim(raw))
  }

  /** The documented query: the first value that parses as an `i64`. */
  function DocumentedI64(scopes: seq<Scope>, key: string): Option<int> {
    Scan(scopes, key, ReadI64)
  }

  /**
   * The code meets its documentation exactly when the first non-empty value parses or no value does: a
   * malformed narrow value hides every broader one.
   */
  lemma FirstI64MeetsDocumentation(a: AnnotationSet, key: string)
    ensures a.FirstI64(key) == DocumentedI64(a.Ordered(), key) <==>
            || (a.FirstNonEmpty(key).Some? && ParseI64(a.FirstNonEmpty(key).value).Some?)
            || (forall i :: 0 <= i < 4 ==> Says(a.Ordered()[i], key, ReadI64).None?)
  {
    ScanIsLeast(a.Ordered(), key, ReadI64);
    FirstParsed(a.Ordered(), key);
  }

  /** When the first non-empty value parses, it is also the first value that parses. */
  lemma {:induction false} FirstParsed(scopes: seq<Scope>, key: string)
    ensures var first := Scan(scopes, key, ReadNonEmpty);
            first.Some? && ParseI64(first.value).Some? ==> Scan(scopes, key, ReadI64) == ParseI64(first.value)
  {
    if scopes != [] {
      FirstParsed(scopes[1..], key);
    }
  }

  /** The failing family: any malformed value in a narrower scope hides any good one in a broader scope. */
  lemma MalformedNarrowValueHidesBroader(a: AnnotationSet, key: string)
    requires Says(a.pod, key, ReadNonEmpty).Some? && Says(a.pod, key, ReadI64).None?
    requires Says(a.owner, key, ReadI64).None? && Says(a.serviceAccount, key, ReadI64).None?
    requires Says(a.namespace, key, ReadI64).Some?
    ensures DocumentedI64(a.Ordered(), key) == Says(a.namespace, key, ReadI64) != a.FirstI64(key) == None
  {
    PodOwnerAccountNamespace(a, key, ReadI64);
    PodOwnerAccountNamespace(a, key, ReadNonEmpty);
  }

  /** For instance `x` on the pod over `7` on the namespace: documented as 7, answered as nothing. */
  lemma MalformedExample()
    ensures var a := AnnotationSet(Some(map["k" := "x"]), None, None, Some(map["k" := "7"]));
            DocumentedI64(a.Ordered(), "k") == Some(7) && a.FirstI64("k") == None
  {
    var x, seven := ['x'], ['7'];
    TrimFacts(x);
    TrimFacts(seven);
    assert !AllDigits(x) by {
      assert !IsDigit(x[0]);
    }
    assert AllDigits(seven) && DigitsValue(seven) == 7 by {
      assert seven[..0] == "";
    }
    MalformedNarrowValueHidesBroader(AnnotationSet(Some(map["k" := x]), None, None, Some(map["k" := seven])), "k");
  }
}
