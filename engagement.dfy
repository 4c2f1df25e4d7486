/**
 * The engagement generator, `generate_engagement_data`. Each attempt picks a
 * viewing session and, with probability 0.7, records an engagement with it:
 * the session's ids and date are copied over, and the rating, flags and
 * engagement type are drawn.
 */
module EngagementGen {
  import opened Records
  import opened Sampling
  import opened Runs

  const EngagementTypes: seq<string> := ["like", "rate", "share", "comment", "add_to_list"]

  /** `[True, False, None]`, the outcomes of the four engagement flags. */
  const TriState: seq<Value> := [Bool(true), Bool(false), Null]

  /** The keys of every engagement record. */
  const EngagementFields: set<Field> := {
    EngagementId, ViewId, UserId, ContentId, EngagementDate, Rating,
    Liked, AddedToList, Shared, CommentAdded, EngagementType
  }

  /**
   * The random draws behind one attempt. The two `random.random()`
   * comparisons (against 0.7 and 0.3) are their boolean outcomes.
   */
  datatype EngagementDraw = EngagementDraw(
    viewPick: nat,          // random.choice(viewing_data)
    engaged: bool,          // random.random() < 0.7
    engagementId: string,   // str(uuid.uuid4())
    rated: bool,            // random.random() < 0.3
    ratingDraw: nat,        // randint(1, 5)
    likedPick: nat,
    addedPick: nat,
    sharedPick: nat,
    commentPick: nat,
    typePick: nat
  )

  /** `view[key]`: the value, or the KeyError it raises. */
  function Lookup(view: Record, key: Field): (r: Result<Value, GenError>)
    ensures r.Ok? <==> key in view
    ensures r.Ok? ==> r.value == view[key]
    ensures r.Err? ==> r.error == MissingKey(key)
  {
    if key in view then Ok(view[key]) else Err(MissingKey(key))
  }

  /** The engagement built from the chosen session, its ids looked up in the order the dict literal lists them. */
  function EngagementWith(view: Record, d: EngagementDraw): Result<Record, GenError> {
    match Lookup(view, ViewId)
    case Err(e) => Err(e)
    case Ok(viewId) =>
      match Lookup(view, UserId)
      case Err(e) => Err(e)
      case Ok(userId) =>
        match Lookup(view, ContentId)
        case Err(e) => Err(e)
        case Ok(contentId) =>
          match Lookup(view, ViewDate)
          case Err(e) => Err(e)
          case Ok(viewDate) =>
            Ok(map[
              EngagementId := Str(d.engagementId),
              ViewId := viewId,
              UserId := userId,
              ContentId := contentId,
              EngagementDate := viewDate,
              Rating := if d.rated then Int(RandInt(1, 5, d.ratingDraw)) else Null,
              Liked := Choice(TriState, d.likedPick),
              AddedToList := Choice(TriState, d.addedPick),
              Shared := Choice(TriState, d.sharedPick),
              CommentAdded := Choice(TriState, d.commentPick),
              EngagementType := Str(Choice(EngagementTypes, d.typePick))
            ])
  }

  /**
   * One attempt: the session is chosen before the gate, so an empty
   * viewing list fails even on an attempt that records nothing.
   */
  function EngagementOf(viewing: seq<Record>, d: EngagementDraw): Result<Option<Record>, GenError> {
    if |viewing| == 0 then Err(EmptySequence)
    else if !d.engaged then Ok(None)
    else
      match EngagementWith(Choice(viewing, d.viewPick), d)
      case Err(e) => Err(e)
      case Ok(r) => Ok(Some(r))
  }

  /** The engagements of the first n attempts, or the exception of the first that fails. */
  function EngagementRecords(viewing: seq<Record>, n: nat, draws: nat -> EngagementDraw): Result<seq<Record>, GenError> {
    CollectSome(d => EngagementOf(viewing, d), n, draws)
  }

  /**
   * `generate_engagement_data(viewing_data, num_records)`: one attempt per
   * iteration, keeping the engagements in attempt order.
   */
  method GenerateEngagementData(viewing: seq<Record>, numRecords: int, draws: nat -> EngagementDraw)
    returns (result: Result<seq<Record>, GenError>)
    ensures result == EngagementRecords(viewing, if numRecords > 0 then numRecords else 0, draws)
  {
    var n: nat := if numRecords > 0 then numRecords else 0;
    var records: seq<Record> := [];
    for i := 0 to n
      invariant EngagementRecords(viewing, i, draws) == Ok(records)
    {
      var attempt := EngagementOf(viewing, draws(i));
      if attempt.Err? {
        CollectSomeErrorPersists(d => EngagementOf(viewing, d), i + 1, n, draws);
        return Err(attempt.error);
      }
      if attempt.value.Some? {
        records := records + [attempt.value.value];
      }
    }
    return Ok(records);
  }

  // ---------------------------------------------------------------------
  // Which attempts are recorded, and in what order
  // ---------------------------------------------------------------------

  /** The attempts among the first n whose gate draw passed, in increasing order. */
  function EngagedAttempts(n: nat, draws: nat -> EngagementDraw): seq<nat> {
    if n == 0 then []
    else EngagedAttempts(n - 1, draws) + (if draws(n - 1).engaged then [n - 1] else [])
  }

  /** In a run without exception, an attempt keeps a record exactly when its gate passed. */
  lemma {:induction false} KeptAreEngaged(viewing: seq<Record>, n: nat, draws: nat -> EngagementDraw)
    requires EngagementRecords(viewing, n, draws).Ok?
    ensures KeptDraws(d => EngagementOf(viewing, d), n, draws) == EngagedAttempts(n, draws)
  {
    if n > 0 {
      KeptAreEngaged(viewing, n - 1, draws);
    }
  }

  /**
   * A run without exception records one engagement per attempt whose gate
   * passed, so never more than the number of attempts, and the k-th
   * engagement comes from the k-th such attempt: attempt order is kept.
   */
  lemma EngagementCount(viewing: seq<Record>, n: nat, draws: nat -> EngagementDraw)
    requires EngagementRecords(viewing, n, draws).Ok?
    ensures |EngagementRecords(viewing, n, draws).value| == |EngagedAttempts(n, draws)| <= n
    ensures forall k :: 0 <= k < |EngagedAttempts(n, draws)| ==>
      EngagementOf(viewing, draws(EngagedAttempts(n, draws)[k])) == Ok(Some(EngagementRecords(viewing, n, draws).value[k]))
  {
    var step := d => EngagementOf(viewing, d);
    KeptAreEngaged(viewing, n, draws);
    CollectSomeAt(step, n, draws);
  }

  /** The attempts recorded are strictly increasing and each one passed the gate. */
  lemma EngagedAttemptsOrdered(n: nat, draws: nat -> EngagementDraw)
    ensures |EngagedAttempts(n, draws)| <= n
    ensures forall k :: 0 <= k < |EngagedAttempts(n, draws)| ==>
      EngagedAttempts(n, draws)[k] < n && draws(EngagedAttempts(n, draws)[k]).engaged
    ensures forall j, k :: 0 <= j < k < |EngagedAttempts(n, draws)| ==>
      EngagedAttempts(n, draws)[j] < EngagedAttempts(n, draws)[k]
  {
    var step := (d: EngagementDraw) => if d.engaged then Ok(Some(map[])) else Ok(None);
    GatedKept(step, n, draws);
    KeptDrawsOrdered(step, n, draws);
  }

  /** For a step that keeps a record exactly when the gate passes, the kept draws are the engaged attempts. */
  lemma {:induction false} GatedKept(step: EngagementDraw -> Result<Option<Record>, GenError>, n: nat, draws: nat -> EngagementDraw)
    requires forall d :: Keeps(step(d)) <==> d.engaged
    ensures KeptDraws(step, n, draws) == EngagedAttempts(n, draws)
  {
    if n > 0 {
      GatedKept(step, n - 1, draws);
    }
  }

  /** With no passing gate among the attempts, no engagement is recorded. */
  lemma {:induction false} NoGateNoEngagement(viewing: seq<Record>, n: nat, draws: nat -> EngagementDraw)
    requires |viewing| > 0
    requires forall k :: 0 <= k < n ==> !draws(k).engaged
    ensures EngagementRecords(viewing, n, draws) == Ok([])
  {
    if n > 0 {
      NoGateNoEngagement(viewing, n - 1, draws);
    }
  }

  // ---------------------------------------------------------------------
  // Failures
  // ---------------------------------------------------------------------

  /**
   * With no viewing sessions, the first attempt fails on its choice
   * (IndexError), whether or not its gate passes.
   */
  lemma NoSessionsFails(viewing: seq<Record>, n: nat, draws: nat -> EngagementDraw)
    requires |viewing| == 0 && n > 0
    ensures EngagementRecords(viewing, n, draws) == Err(EmptySequence)
  {
    CollectSomeFails(d => EngagementOf(viewing, d), n, draws, 0);
  }

  /** A session that carries the four keys an engagement copies. */
  predicate Joinable(view: Record) {
    ViewId in view && UserId in view && ContentId in view && ViewDate in view
  }

  /** An attempt on a session that carries the keys never fails. */
  lemma JoinableAttemptSucceeds(viewing: seq<Record>, d: EngagementDraw)
    requires |viewing| > 0 && Joinable(Choice(viewing, d.viewPick))
    ensures EngagementOf(viewing, d).Ok?
  {
  }

  /** An engaged attempt on a session without one of the keys fails with that key's KeyError. */
  lemma MissingKeyFails(viewing: seq<Record>, d: EngagementDraw)
    requires |viewing| > 0 && d.engaged && !Joinable(Choice(viewing, d.viewPick))
    ensures EngagementOf(viewing, d).Err? && EngagementOf(viewing, d).error.MissingKey?
    ensures EngagementOf(viewing, d).error.key in {ViewId, UserId, ContentId, ViewDate}
    ensures EngagementOf(viewing, d).error.key !in Choice(viewing, d.viewPick)
  {
  }

  /** Attempts over a non-empty list of joinable sessions never fail. */
  lemma JoinableSessionsSucceed(viewing: seq<Record>, n: nat, draws: nat -> EngagementDraw)
    requires |viewing| > 0
    requires forall k :: 0 <= k < |viewing| ==> Joinable(viewing[k])
    ensures EngagementRecords(viewing, n, draws).Ok?
  {
    var step := d => EngagementOf(viewing, d);
    forall j | 0 <= j < n
      ensures step(draws(j)).Ok?
    {
      var d := draws(j);
      assert Choice(viewing, d.viewPick) == viewing[d.viewPick % |viewing|];
      JoinableAttemptSucceeds(viewing, d);
    }
    CollectSomeSucceeds(step, n, draws);
  }

  // ---------------------------------------------------------------------
  // What one engagement holds
  // ---------------------------------------------------------------------

  /** The engagement references the chosen session: its ids copied, its date as the engagement date. */
  predicate JoinsTo(e: Record, view: Record) {
    && Joinable(view)
    && ViewId in e && e[ViewId] == view[ViewId]
    && UserId in e && e[UserId] == view[UserId]
    && ContentId in e && e[ContentId] == view[ContentId]
    && EngagementDate in e && e[EngagementDate] == view[ViewDate]
  }

  /** Every engagement has exactly the eleven keys, and joins to the session its attempt chose. */
  lemma EngagementJoins(viewing: seq<Record>, d: EngagementDraw, e: Record)
    requires EngagementOf(viewing, d) == Ok(Some(e))
    ensures |viewing| > 0 && d.engaged
    ensures e.Keys == EngagementFields
    ensures JoinsTo(e, Choice(viewing, d.viewPick))
    ensures Choice(viewing, d.viewPick) in viewing
  {
    ChoiceIn(viewing, d.viewPick);
    var view := Choice(viewing, d.viewPick);
    assert EngagementWith(view, d) == Ok(e);
    EngagementWithJoins(view, d, e);
  }

  /** An engagement built from a session has the eleven keys and copies the session's ids and date. */
  lemma EngagementWithJoins(view: Record, d: EngagementDraw, e: Record)
    requires EngagementWith(view, d) == Ok(e)
    ensures e.Keys == EngagementFields
    ensures JoinsTo(e, view)
  {
    assert ViewId in view && UserId in view && ContentId in view && ViewDate in view;
    assert e[ViewId] == view[ViewId] && e[UserId] == view[UserId];
    assert e[ContentId] == view[ContentId] && e[EngagementDate] == view[ViewDate];
  }

  /** The engagement references one of the sessions. */
  predicate JoinsSome(e: Record, viewing: seq<Record>) {
    exists j :: 0 <= j < |viewing| && JoinsTo(e, viewing[j])
  }

  /** Every recorded engagement references some session of the viewing list. */
  lemma ReferentialIntegrity(viewing: seq<Record>, n: nat, draws: nat -> EngagementDraw)
    requires EngagementRecords(viewing, n, draws).Ok?
    ensures forall k :: 0 <= k < |EngagementRecords(viewing, n, draws).value| ==>
      JoinsSome(EngagementRecords(viewing, n, draws).value[k], viewing)
  {
    var rs := EngagementRecords(viewing, n, draws).value;
    var attempts := EngagedAttempts(n, draws);
    EngagementCount(viewing, n, draws);
    forall k | 0 <= k < |rs|
      ensures JoinsSome(rs[k], viewing)
    {
      var d := draws(attempts[k]);
      EngagementJoins(viewing, d, rs[k]);
      var j := d.viewPick % |viewing|;
      assert Choice(viewing, d.viewPick) == viewing[j];
    }
  }

  /**
   * The drawn values: a rating is None or in [1, 5], each flag is True,
   * False or None, and the type is one of the five engagement types.
   */
  lemma EngagementValues(viewing: seq<Record>, d: EngagementDraw, e: Record)
    requires EngagementOf(viewing, d) == Ok(Some(e))
    ensures Rating in e && (e[Rating] == Null || (e[Rating].Int? && 1 <= e[Rating].i <= 5))
    ensures e[Rating] == Null <==> !d.rated
    ensures Liked in e && e[Liked] in TriState
    ensures AddedToList in e && e[AddedToList] in TriState
    ensures Shared in e && e[Shared] in TriState
    ensures CommentAdded in e && e[CommentAdded] in TriState
    ensures EngagementType in e && e[EngagementType].Str? && e[EngagementType].s in EngagementTypes
  {
    ChoiceIn(TriState, d.likedPick);
    ChoiceIn(TriState, d.addedPick);
    ChoiceIn(TriState, d.sharedPick);
    ChoiceIn(TriState, d.commentPick);
    ChoiceIn(EngagementTypes, d.typePick);
  }
}
