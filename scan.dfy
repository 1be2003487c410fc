/**
 * The two scan disciplines both channel roles apply to the records fetched
 * from one address, stated as functions of the fetched sequence.
 *
 * Every scan skips a record whose header does not parse and a record of
 * another content type. Among records of the target type:
 *  - connect stops at the first one, whatever its unwrap does (FirstOfType);
 *  - add_subscriber, remove_subscriber and update_keyload go past records
 *    whose unwrap fails and stop at the first whose unwrap succeeds
 *    (FirstAccepted);
 *  - read_signed and read_tagged never stop early and collect the payload of
 *    every record whose unwrap succeeds, in fetched order (Accepted).
 */
module Scan {
  import opened Streams

  /** The record's header parses and names content type `kind`. */
  predicate HasType(r: Record, kind: ContentType) {
    r.Parsed? && r.kind == kind
  }

  /** The record has type `kind` and the fetching role's unwrap of it succeeds. */
  predicate Accepts(r: Record, kind: ContentType) {
    HasType(r, kind) && r.unwrapOk
  }

  /** No record of `rs` is an accepted record of type `kind`. */
  predicate NoneAccepted(rs: seq<Record>, kind: ContentType) {
    forall j :: 0 <= j < |rs| ==> !Accepts(rs[j], kind)
  }

  /** Position of the first record of type `kind`, if any. */
  function FirstOfType(rs: seq<Record>, kind: ContentType): (first: Option<nat>)
    ensures first.Some? ==> first.value < |rs| && HasType(rs[first.value], kind)
    ensures first.Some? ==> forall j :: 0 <= j < first.value ==> !HasType(rs[j], kind)
    ensures first.None? ==> forall j :: 0 <= j < |rs| ==> !HasType(rs[j], kind)
  {
    if rs == [] then None
    else if HasType(rs[0], kind) then Some(0)
    else match FirstOfType(rs[1..], kind)
      case None => None
      case Some(i) => Some(i + 1)
  }

  /** Position of the first accepted record of type `kind`, if any. */
  function FirstAccepted(rs: seq<Record>, kind: ContentType): (first: Option<nat>)
    ensures first.Some? ==> first.value < |rs| && Accepts(rs[first.value], kind)
    ensures first.Some? ==> forall j :: 0 <= j < first.value ==> !Accepts(rs[j], kind)
    ensures first.None? <==> NoneAccepted(rs, kind)
  {
    if rs == [] then None
    else if Accepts(rs[0], kind) then Some(0)
    else match FirstAccepted(rs[1..], kind)
      case None => None
      case Some(i) => Some(i + 1)
  }

  /** Payloads of the accepted records of type `kind`, in fetched order. */
  function Accepted(rs: seq<Record>, kind: ContentType): (ps: seq<Payload>)
    ensures |ps| <= |rs|
  {
    if rs == [] then []
    else
      var last := rs[|rs| - 1];
      Accepted(rs[..|rs| - 1], kind) + (if Accepts(last, kind) then [last.payload] else [])
  }

  /** Positions of the accepted records of type `kind`: all of them, ascending. */
  function AcceptedIndices(rs: seq<Record>, kind: ContentType): (ix: seq<nat>)
    ensures forall j :: 0 <= j < |ix| ==> ix[j] < |rs| && Accepts(rs[ix[j]], kind)
    ensures forall i :: 0 <= i < |rs| && Accepts(rs[i], kind) ==> i in ix
    ensures forall j, k :: 0 <= j < k < |ix| ==> ix[j] < ix[k]
  {
    if rs == [] then []
    else
      var n := |rs| - 1;
      AcceptedIndices(rs[..n], kind) + (if Accepts(rs[n], kind) then [n] else [])
  }

  /**
   * The collected list is exactly the payloads of the accepted records, in
   * the order they were fetched: its j-th entry is the payload of the j-th
   * accepted position.
   */
  lemma {:induction false} AcceptedAt(rs: seq<Record>, kind: ContentType)
    ensures |Accepted(rs, kind)| == |AcceptedIndices(rs, kind)|
    ensures forall j :: 0 <= j < |AcceptedIndices(rs, kind)| ==>
              Accepted(rs, kind)[j] == rs[AcceptedIndices(rs, kind)[j]].payload
  {
    if rs != [] {
      var n := |rs| - 1;
      AcceptedAt(rs[..n], kind);
      var ix := AcceptedIndices(rs[..n], kind);
      forall j | 0 <= j < |ix|
        ensures rs[..n][ix[j]] == rs[ix[j]]
      {
      }
    }
  }

  /** A payload is collected if and only if some accepted record carries it. */
  lemma {:induction false} AcceptedContains(rs: seq<Record>, kind: ContentType, p: Payload)
    ensures p in Accepted(rs, kind) <==>
            exists i :: 0 <= i < |rs| && Accepts(rs[i], kind) && rs[i].payload == p
  {
    AcceptedAt(rs, kind);
    var ps, ix := Accepted(rs, kind), AcceptedIndices(rs, kind);
    if p in ps {
      var j :| 0 <= j < |ps| && ps[j] == p;
      assert Accepts(rs[ix[j]], kind) && rs[ix[j]].payload == p;
    }
    if exists i :: 0 <= i < |rs| && Accepts(rs[i], kind) && rs[i].payload == p {
      var i :| 0 <= i < |rs| && Accepts(rs[i], kind) && rs[i].payload == p;
      assert i in ix;
      var j :| 0 <= j < |ix| && ix[j] == i;
      assert ps[j] == p;
    }
  }

  /** Collecting over a concatenation collects over each part, in order: the scan never stops early. */
  lemma {:induction false} AcceptedAppend(a: seq<Record>, b: seq<Record>, kind: ContentType)
    ensures Accepted(a + b, kind) == Accepted(a, kind) + Accepted(b, kind)
  {
    if b == [] {
      assert a + b == a;
    } else {
      var n := |b| - 1;
      AcceptedAppend(a, b[..n], kind);
      assert (a + b)[..|a + b| - 1] == a + b[..n];
      assert (a + b)[|a + b| - 1] == b[n];
    }
  }

  /** Nothing is collected from records none of which is accepted. */
  lemma {:induction false} NoneAcceptedCollectsNothing(rs: seq<Record>, kind: ContentType)
    requires NoneAccepted(rs, kind)
    ensures Accepted(rs, kind) == []
  {
    if rs != [] {
      var n := |rs| - 1;
      assert !Accepts(rs[n], kind);
      assert forall j :: 0 <= j < n ==> rs[..n][j] == rs[j];
      NoneAcceptedCollectsNothing(rs[..n], kind);
    }
  }

  /**
   * "First match wins" picks the head of what "collect all" would return:
   * both find nothing together, and otherwise the first accepted record's
   * payload is the first collected payload.
   */
  lemma {:induction false} FirstAcceptedHeadsAccepted(rs: seq<Record>, kind: ContentType)
    ensures FirstAccepted(rs, kind).None? <==> Accepted(rs, kind) == []
    ensures FirstAccepted(rs, kind).Some? ==>
              Accepted(rs, kind)[0] == rs[FirstAccepted(rs, kind).value].payload
  {
    AcceptedAt(rs, kind);
    var ix := AcceptedIndices(rs, kind);
    match FirstAccepted(rs, kind)
    case None =>
      NoneAcceptedCollectsNothing(rs, kind);
    case Some(i) =>
      assert i in ix;
      var k :| 0 <= k < |ix| && ix[k] == i;
      assert ix[0] <= i;
      assert !(ix[0] < i) by {
        assert Accepts(rs[ix[0]], kind);
      }
  }

  /**
   * Scan robustness: any number of unparsable, foreign or rejected records
   * around exactly one accepted record of the target type do not stop the
   * scan; a first-match scan finds that record and a collecting scan returns
   * its payload alone.
   */
  lemma NoiseIgnored(before: seq<Record>, target: Record, after: seq<Record>, kind: ContentType)
    requires NoneAccepted(before, kind) && NoneAccepted(after, kind)
    requires Accepts(target, kind)
    ensures FirstAccepted(before + [target] + after, kind) == Some(|before|)
    ensures Accepted(before + [target] + after, kind) == [target.payload]
  {
    var rs := before + [target] + after;
    assert rs[|before|] == target;
    forall j | 0 <= j < |before|
      ensures !Accepts(rs[j], kind)
    {
      assert rs[j] == before[j];
    }
    AcceptedAppend(before + [target], after, kind);
    AcceptedAppend(before, [target], kind);
    NoneAcceptedCollectsNothing(before, kind);
    NoneAcceptedCollectsNothing(after, kind);
    assert [target][..0] == [];
  }

  /**
   * Connect's discipline against the others': when the first record of the
   * type is accepted, both stop there; when it is rejected, connect stops
   * there anyway, while a first-match scan goes on to a later record or to
   * the end.
   */
  lemma FirstOfTypeVersusFirstAccepted(rs: seq<Record>, kind: ContentType)
    ensures FirstOfType(rs, kind).None? ==> FirstAccepted(rs, kind).None?
    ensures FirstOfType(rs, kind).Some? && rs[FirstOfType(rs, kind).value].unwrapOk ==>
              FirstAccepted(rs, kind) == FirstOfType(rs, kind)
    ensures FirstOfType(rs, kind).Some? && !rs[FirstOfType(rs, kind).value].unwrapOk ==>
              FirstAccepted(rs, kind).None? ||
              FirstAccepted(rs, kind).value > FirstOfType(rs, kind).value
  {
    match FirstOfType(rs, kind)
    case None =>
    case Some(i) =>
      match FirstAccepted(rs, kind)
      case None =>
      case Some(k) =>
        assert HasType(rs[k], kind);
  }
}
