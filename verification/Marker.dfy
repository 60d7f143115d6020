/** The status marker: a comma-joined sorted list of provider names, merged into what the pod carries. */
module Marker {
  import opened Prelude
  import opened Text
  import opened Annotations

  /** A name the marker can carry. */
  predicate Clean(name: string) {
    name != "" && Trimmed(name) && ',' !in name
  }

  /** The names in a marker value: split, trim, drop the empty ones. */
  function Pieces(raw: string): seq<string> {
    CleanPieces(Split(raw, ','))
  }

  function CleanPieces(pieces: seq<string>): seq<string> {
    if pieces == [] then []
    else
      var t := Trim(pieces[0]);
      (if t == "" then [] else [t]) + CleanPieces(pieces[1..])
  }

  function NamesIn(marker: Option<string>): set<string> {
    match marker
    case None => {}
    case Some(raw) => set n | n in Pieces(raw)
  }

  function Abbrs(ids: seq<ProviderId>): set<string> {
    set id | id in ids :: id.Abbr()
  }

  function AbbrSeq(ids: seq<ProviderId>): seq<string> {
    seq(|ids|, i requires 0 <= i < |ids| => ids[i].Abbr())
  }

  function InsertAll(set_: seq<string>, names: seq<string>): seq<string>
    decreases |names|
  {
    if names == [] then set_ else InsertAll(SetInsert(set_, names[0]), names[1..])
  }

  /** The set of names, as a `BTreeSet` holds it. */
  function MarkerSet(existing: Option<string>, newly: seq<ProviderId>): seq<string> {
    InsertAll(match existing { case None => [] case Some(raw) => InsertAll([], Pieces(raw)) }, AbbrSeq(newly))
  }

  function MarkerOf(existing: Option<string>, newly: seq<ProviderId>): string {
    Join(MarkerSet(existing, newly), ',')
  }

  /** `merged_marker` */
  method MergedMarker(existing: Option<string>, newly: seq<ProviderId>) returns (marker: string)
    ensures marker == MarkerOf(existing, newly)
  {
    var set_: seq<string> := [];
    if existing.Some? {
      var pieces := Split(existing.value, ',');
      for i := 0 to |pieces|
        invariant set_ == InsertAll([], CleanPieces(pieces[..i]))
      {
        var p := Trim(pieces[i]);
        CleanPiecesSnoc(pieces[..i], pieces[i]);
        assert pieces[..i + 1] == pieces[..i] + [pieces[i]];
        if p != "" {
          InsertAllSnoc([], CleanPieces(pieces[..i]), p);
          set_ := SetInsert(set_, p);
        }
      }
      assert pieces[..|pieces|] == pieces;
    }
    ghost var start := set_;
    for i := 0 to |newly|
      invariant set_ == InsertAll(start, AbbrSeq(newly[..i]))
    {
      InsertAllSnoc(start, AbbrSeq(newly[..i]), newly[i].Abbr());
      assert AbbrSeq(newly[..i + 1]) == AbbrSeq(newly[..i]) + [newly[i].Abbr()];
      set_ := SetInsert(set_, newly[i].Abbr());
    }
    assert newly[..|newly|] == newly;
    marker := Join(set_, ',');
  }

  lemma {:induction false} InsertAllSnoc(set_: seq<string>, names: seq<string>, n: string)
    ensures InsertAll(set_, names + [n]) == SetInsert(InsertAll(set_, names), n)
    decreases |names|
  {
    if names == [] {
      assert names + [n] == [n] && [n][1..] == [];
      assert InsertAll(SetInsert(set_, n), []) == SetInsert(set_, n);
    } else {
      assert (names + [n])[1..] == names[1..] + [n];
      InsertAllSnoc(SetInsert(set_, names[0]), names[1..], n);
    }
  }

  lemma {:induction false} CleanPiecesSnoc(pieces: seq<string>, p: string)
    ensures CleanPieces(pieces + [p]) ==
            if Trim(p) == "" then CleanPieces(pieces) else CleanPieces(pieces) + [Trim(p)]
  {
    if pieces == [] {
      assert [p][1..] == [] && pieces + [p] == [p];
    } else {
      assert (pieces + [p])[1..] == pieces[1..] + [p];
      CleanPiecesSnoc(pieces[1..], p);
    }
  }

  lemma {:induction false} InsertAllFacts(set_: seq<string>, names: seq<string>)
    requires StrictlySorted(set_)
    ensures StrictlySorted(InsertAll(set_, names))
    ensures forall n :: n in InsertAll(set_, names) <==> n in set_ || n in names
    decreases |names|
  {
    if names != [] {
      SetInsertMembers(set_, names[0]);
      SetInsertSorted(set_, names[0]);
      InsertAllFacts(SetInsert(set_, names[0]), names[1..]);
      assert names == [names[0]] + names[1..];
    }
  }

  lemma {:induction false} CleanPiecesAreClean(pieces: seq<string>)
    requires forall p :: p in pieces ==> ',' !in p
    ensures forall n :: n in CleanPieces(pieces) ==> Clean(n)
  {
    if pieces != [] {
      assert pieces[0] in pieces;
      assert forall p :: p in pieces[1..] ==> p in pieces;
      CleanPiecesAreClean(pieces[1..]);
      TrimFacts(pieces[0]);
    }
  }

  lemma AbbrSeqFacts(ids: seq<ProviderId>)
    ensures forall n :: n in AbbrSeq(ids) <==> n in Abbrs(ids)
    ensures forall n :: n in AbbrSeq(ids) ==> Clean(n)
  {
    assert forall i :: 0 <= i < |ids| ==> ids[i] in ids && AbbrSeq(ids)[i] == ids[i].Abbr();
    assert forall id: ProviderId :: Clean(id.Abbr());
  }

  lemma MarkerSetFacts(existing: Option<string>, newly: seq<ProviderId>)
    ensures StrictlySorted(MarkerSet(existing, newly))
    ensures (set n | n in MarkerSet(existing, newly)) == NamesIn(existing) + Abbrs(newly)
    ensures forall n :: n in MarkerSet(existing, newly) ==> Clean(n)
  {
    AbbrSeqFacts(newly);
    var start := match existing { case None => [] case Some(raw) => InsertAll([], Pieces(raw)) };
    if existing.Some? {
      SplitPieces(existing.value, ',');
      CleanPiecesAreClean(Split(existing.value, ','));
      InsertAllFacts([], Pieces(existing.value));
    }
    InsertAllFacts(start, AbbrSeq(newly));
  }

  lemma {:induction false} CleanPiecesOfClean(names: seq<string>)
    requires forall n :: n in names ==> Clean(n)
    ensures CleanPieces(names) == names
  {
    if names != [] {
      assert Clean(names[0]);
      TrimFacts(names[0]);
      CleanPiecesOfClean(names[1..]);
      assert names == [names[0]] + names[1..];
    }
  }

  /** Reading back a joined list of clean names gives the list. */
  lemma PiecesOfJoin(names: seq<string>)
    requires forall n :: n in names ==> Clean(n)
    ensures Pieces(Join(names, ',')) == names
  {
    if names == [] {
      assert Split("", ',') == [""] && [""][1..] == [];
      assert Trim("") == "";
    } else {
      SplitJoin(names, ',');
      CleanPiecesOfClean(names);
    }
  }

  /** The written marker reads back as the union of what was there and what was injected. */
  lemma MarkerRoundTrip(existing: Option<string>, newly: seq<ProviderId>)
    ensures NamesIn(Some(MarkerOf(existing, newly))) == NamesIn(existing) + Abbrs(newly)
  {
    MarkerSetFacts(existing, newly);
    PiecesOfJoin(MarkerSet(existing, newly));
  }

  /** The marker is the join of a strictly sorted list, and reads back as that list. */
  lemma MarkerSorted(e: Option<string>, ids: seq<ProviderId>)
    ensures exists xs :: StrictlySorted(xs) && MarkerOf(e, ids) == Join(xs, ',') && Pieces(MarkerOf(e, ids)) == xs
  {
    MarkerSetFacts(e, ids);
    PiecesOfJoin(MarkerSet(e, ids));
  }

  /**
   * The marker is canonical: it is the same string exactly when it stands for the same set of names, however
   * the old marker was spelled and in whatever order the providers come.
   */
  lemma MarkerCanonical(e: Option<string>, ids: seq<ProviderId>, e': Option<string>, ids': seq<ProviderId>)
    ensures MarkerOf(e, ids) == MarkerOf(e', ids') <==> NamesIn(e) + Abbrs(ids) == NamesIn(e') + Abbrs(ids')
  {
    MarkerSetFacts(e, ids);
    MarkerSetFacts(e', ids');
    MarkerRoundTrip(e, ids);
    MarkerRoundTrip(e', ids');
    if NamesIn(e) + Abbrs(ids) == NamesIn(e') + Abbrs(ids') {
      SortedUnique(MarkerSet(e, ids), MarkerSet(e', ids'));
    }
  }

  /** All three providers on a fresh pod. */
  lemma MarkerExample()
    ensures MarkerOf(None, [Gcp, Aws, Az]) == "aws,az,gcp"
  {
    assert AbbrSeq([Gcp, Aws, Az]) == ["gcp", "aws", "az"];
    assert ["gcp", "aws", "az"][1..] == ["aws", "az"] && ["aws", "az"][1..] == ["az"] && ["az"][1..] == [];
    LessExactly("aws", "gcp");
    assert "aws"[..0] == "gcp"[..0];
    LessExactly("aws", "az");
    LessExactly("az", "aws");
    assert "aws"[..1] == "az"[..1];
    LessTotal("aws", "az");
    LessExactly("az", "gcp");
    assert "az"[..0] == "gcp"[..0];
    assert SetInsert([], "gcp") == ["gcp"];
    assert SetInsert(["gcp"], "aws") == ["aws", "gcp"];
    assert ["aws", "gcp"][1..] == ["gcp"];
    assert SetInsert(["aws", "gcp"], "az") == ["aws", "az", "gcp"];
    assert ["aws", "az", "gcp"][1..] == ["az", "gcp"] && ["az", "gcp"][1..] == ["gcp"];
    assert Join(["az", "gcp"], ',') == "az,gcp";
  }

  lemma AbbrsConcat(a: seq<ProviderId>, b: seq<ProviderId>)
    ensures Abbrs(a + b) == Abbrs(a) + Abbrs(b)
  {
  }

  /** Merging in two rounds is merging once; merging what is already there changes nothing. */
  lemma MarkerCompose(existing: Option<string>, ids: seq<ProviderId>, ids': seq<ProviderId>)
    ensures MarkerOf(Some(MarkerOf(existing, ids)), ids') == MarkerOf(existing, ids + ids')
    ensures MarkerOf(Some(MarkerOf(existing, ids)), ids) == MarkerOf(existing, ids)
  {
    MarkerRoundTrip(existing, ids);
    AbbrsConcat(ids, ids');
    MarkerCanonical(Some(MarkerOf(existing, ids)), ids', existing, ids + ids');
    MarkerCanonical(Some(MarkerOf(existing, ids)), ids, existing, ids);
  }
}
