/**
 Tables that the writer really leaves behind: on one the order of equal timestamps shows in a
 snapshot, on one a neighborhood overwrites it, and on one a null sets the two services apart.
 */
module StoreWitnesses {
  import opened Common
  import opened SignalStore
  import opened SignalQueries
  import opened MarketState
  import opened SnapshotAgreement
  import opened DecisionPolicies
  import opened HoldingDecision
  import opened StableSort
  import opened Rounding
  import R = Reactions

  const NOTE: Write := Write(Hazard, SUBJECT_PROPERTY, "p", Naive(0), None,
                             Some(map["flood_detail" := Text("a")]), None)
  const DETAIL: Write := Write(HazardOf(Flood), SUBJECT_PROPERTY, "p", Naive(0), None,
                               Some(map["k" := Text("b")]), None)
  const AREA: Write := Write(HazardOf(Flood), SUBJECT_NEIGHBORHOOD, "z", Naive(0), Some(1.0),
                             Some(map["k" := Text("c")]), None)

  const LONE: Property := Property("p", map[], "", None, None, map[])
  const IN_AREA: Property := Property("p", map["zip_code" := "z"], "", None, None, map[])

  lemma TieTable()
    ensures Run([], [NOTE, DETAIL]) == [Written(None, NOTE), Written(None, DETAIL)]
    ensures Run([], [NOTE, DETAIL, AREA]) == [Written(None, NOTE), Written(None, DETAIL), Written(None, AREA)]
  {
    var a, b, c := Written(None, NOTE), Written(None, DETAIL), Written(None, AREA);
    hide Written;
    RunStep([], [], NOTE);
    assert [] + [NOTE] == [NOTE];
    RunStep([], [NOTE], DETAIL);
    assert [NOTE] + [DETAIL] == [NOTE, DETAIL];
    RunStep([], [NOTE, DETAIL], AREA);
    assert [NOTE, DETAIL] + [AREA] == [NOTE, DETAIL, AREA];
  }

  lemma RunStep(rows: seq<Signal>, writes: seq<Write>, w: Write)
    ensures Run(rows, writes + [w]) == Upserted(Run(rows, writes), w)
  {
    assert (writes + [w])[..|writes|] == writes;
  }

  /** The two property rows are a reading of either table. */
  lemma TiedReading(rows: seq<Signal>)
    requires rows == [Written(None, NOTE), Written(None, DETAIL)]
          || rows == [Written(None, NOTE), Written(None, DETAIL), Written(None, AREA)]
    ensures IsLatest(rows, SUBJECT_PROPERTY, "p", [Written(None, NOTE), Written(None, DETAIL)])
  {
    var own := [Written(None, NOTE), Written(None, DETAIL)];
    assert own[0] == rows[0] && own[1] == rows[1];
    ByTypeSnoc([own[0]], own[1], Hazard);
    ByTypeSnoc([], own[0], Hazard);
    ByTypeSnoc([own[0]], own[1], HazardOf(Flood));
    assert [] + [own[0]] == [own[0]] && [own[0]] + [own[1]] == own;
    hide ByType;
  }

  /** Both write the flag "flood_detail", at the same time and differently. */
  lemma TiedRows()
    ensures !AgreeOn([Written(None, NOTE), Written(None, DETAIL)], "flood_detail")
  {
    var own := [Written(None, NOTE), Written(None, DETAIL)];
    assert DetailName(Flood) == "flood_detail" && "k" in own[1].payload;
    assert Flags(own[0])["flood_detail"] == Text("a");
    assert Flags(own[1])["flood_detail"] == Obj(map["k" := Text("b")]);
    hide Flags;
    assert OldestWriter(own, 0, "flood_detail") && OldestWriter(own, 1, "flood_detail");
  }

  /** Two writes in one instant leave a table on which the two builders may differ. */
  lemma TieShows()
    ensures !SnapshotDetermined(Run([], [NOTE, DETAIL]), LONE)
    ensures exists own, other ::
              && IsLatest(Run([], [NOTE, DETAIL]), SUBJECT_PROPERTY, "p", own)
              && IsLatest(Run([], [NOTE, DETAIL]), SUBJECT_PROPERTY, "p", other)
              && Aggregated(BaseSnapshot(LONE), own).hazardFlags != Aggregated(BaseSnapshot(LONE), other).hazardFlags
  {
    var rows, own := Run([], [NOTE, DETAIL]), [Written(None, NOTE), Written(None, DETAIL)];
    TieTable();
    RunKeepsUnique([], [NOTE, DETAIL]);
    TiedReading(rows);
    TiedRows();
    LoneKeys();
    hide Run, IsLatest, AgreeOn, Aggregated, SnapshotDetermined, NeighborhoodKeys, Written, Writes;
    assert IsReading(rows, LONE, own, []);
    assert !Masked(LONE.hazardFlags, own, [], "flood_detail");
    SnapshotsAgree(rows, LONE, own, []);
    var other := Disagree(rows, SUBJECT_PROPERTY, "p", BaseSnapshot(LONE), own, "flood_detail");
  }

  /** With a row of the same kind for the zip code the tie is still there, and no snapshot shows it. */
  lemma TieIsMasked()
    ensures SnapshotDetermined(Run([], [NOTE, DETAIL, AREA]), IN_AREA)
    ensures exists own :: && IsLatest(Run([], [NOTE, DETAIL, AREA]), SUBJECT_PROPERTY, "p", own)
                          && !OldestWritersAgree(own)
  {
    var rows := Run([], [NOTE, DETAIL, AREA]);
    var own, lists := [Written(None, NOTE), Written(None, DETAIL)], [[Written(None, AREA)]];
    TieTable();
    RunKeepsUnique([], [NOTE, DETAIL, AREA]);
    TiedReading(rows);
    TiedRows();
    AreaReading(rows);
    AreaKeys();
    hide Run, IsLatest, Aggregated, SnapshotDetermined, Written, NeighborhoodKeys, Masked, AgreeOn;
    assert IsReading(rows, IN_AREA, own, lists);
    forall flag ensures Masked(IN_AREA.hazardFlags, own, lists, flag) || AgreeOn(own, flag) {
      OnlyDetailTies(own, lists, flag);
    }
    SnapshotsAgree(rows, IN_AREA, own, lists);
  }

  lemma LoneKeys()
    ensures NeighborhoodKeys(LONE) == []
  {
  }

  lemma AreaKeys()
    ensures NeighborhoodKeys(IN_AREA) == ["z"]
  {
  }

  lemma AreaReading(rows: seq<Signal>)
    requires rows == [Written(None, NOTE), Written(None, DETAIL), Written(None, AREA)]
    ensures IsLatest(rows, SUBJECT_NEIGHBORHOOD, "z", [Written(None, AREA)])
  {
    var list := [Written(None, AREA)];
    assert list[0] == rows[2];
    ByTypeSnoc([], list[0], HazardOf(Flood));
    assert [] + [list[0]] == list;
  }

  lemma OnlyDetailTies(own: seq<Signal>, lists: seq<seq<Signal>>, flag: string)
    requires own == [Written(None, NOTE), Written(None, DETAIL)] && lists == [[Written(None, AREA)]]
    ensures Masked(map[], own, lists, flag) || AgreeOn(own, flag)
  {
    assert DetailName(Flood) == "flood_detail" && "k" in own[1].payload && "k" in lists[0][0].payload;
    assert Flags(own[0]).Keys == {"flood_detail"} && Flags(own[1]).Keys == {"flood_detail"};
    if flag == "flood_detail" {
      ByTypeSnoc([], lists[0][0], HazardOf(Flood));
      assert [] + [lists[0][0]] == lists[0];
      assert HasDetail(lists, 0, Flood);
      assert KindName(Flood) == "flood" && |"flood"| != |"flood_detail"|;
      assert MaskedBy(map[], own, lists, flag, Flood);
    }
  }

  // ---------------------------------------------------------------------------
  // A null that hides a value
  // ---------------------------------------------------------------------------

  const SEEN: Write := Write(Scalar(InventoryPressure), SUBJECT_NEIGHBORHOOD, "z", Naive(0), Some(0.2), None, None)
  const NULLED: Write := Write(Scalar(InventoryPressure), SUBJECT_NEIGHBORHOOD, "z", Naive(DAY), None, None, None)

  const ZIP_ONLY: Holding := Holding("h", "", "", "z")

  const BY_ZIP: Snapshot := Bare("z", map[InventoryPressure := 0.2])
  const BY_NEWEST: Snapshot := Bare("z", map[])

  lemma NullTable()
    ensures Run([], [SEEN, NULLED]) == [Written(None, SEEN), Written(None, NULLED)]
  {
    var a, b := Written(None, SEEN), Written(None, NULLED);
    assert KeyOf(a) != KeyOf(b);
    RunStep([], [], SEEN);
    assert [] + [SEEN] == [SEEN];
    RunStep([], [SEEN], NULLED);
    assert [SEEN] + [NULLED] == [SEEN, NULLED];
    assert Run([], [SEEN]) == [a];
  }

  lemma NullAnswer(a: Signal, b: Signal)
    requires a == Written(None, SEEN) && b == Written(None, NULLED)
    ensures IsAnswer([a, b], SUBJECT_NEIGHBORHOOD, {"z"}, [b, a]) && FromZip("z", [b, a], BY_ZIP)
  {
    var answer := [b, a];
    assert answer[..1] == [b] && [b][..0] == [];
    forall f ensures At(BY_ZIP.scalars, f) == if f in DECISION_FIELDS then FirstWithValue(answer, f) else None {
      assert FirstWithValue([b], f) == None;
    }
    hide FirstWithValue;
  }

  lemma NullLatest(a: Signal, b: Signal)
    requires a == Written(None, SEEN) && b == Written(None, NULLED)
    ensures IsLatest([a, b], SUBJECT_NEIGHBORHOOD, "z", [b]) && FromNewest("z", [b], BY_NEWEST)
  {
    var rows := [a, b];
    assert b == rows[1];
    ByTypeSnoc([], b, Scalar(InventoryPressure));
    assert [] + [b] == [b] && [b][..0] == [];
    forall f ensures At(BY_NEWEST.scalars, f) == LastValue([b], f) {
      assert LastValue([b], f) == None;
    }
    hide LastValue, ByType;
  }

  lemma NullResolved()
    ensures ResolvedSingly(Run([], [SEEN, NULLED]), map[], ZIP_ONLY, Some(BY_ZIP))
    ensures ResolvedInBulk(Run([], [SEEN, NULLED]), map[], ZIP_ONLY, Some(BY_NEWEST))
  {
    NullTable();
    NullAnswer(Written(None, SEEN), Written(None, NULLED));
    NullLatest(Written(None, SEEN), Written(None, NULLED));
    hide Run, IsAnswer, IsLatest, FromZip, FromNewest, Written;
  }

  lemma Reading(view: View)
    requires Read(view, SafetyScore) == None
    ensures var r := ReactionOf(None, view, None);
            r.investorOptimism == Slack(view) && r.displacementConcern == 0.0 && r.perceivedSafety == 0.0
  {
    hide Slack, ReactionOf, Read;
    ReactionIsOneClamp(None, view, None, 2);
    ReactionIsOneClamp(None, view, None, 4);
    ReactionIsOneClamp(None, view, None, 5);
    SlackInRange(view);
    assert Safety(view) == 0.0;
  }

  lemma SlackInRange(view: View)
    ensures -1.0 <= Slack(view) <= 1.0
  {
  }

  lemma SeenReaction(view: View, reaction: R.Vector)
    requires view == ViewOf(BY_ZIP) && reaction == ReactionOf(None, view, None)
    ensures ListHold(view, reaction) == Some(Recommendation("list", 0.8))
    ensures Lease(view, reaction) == None && Churn(view, reaction) == None
  {
    assert Read(view, InventoryPressure) == Some(0.2)
        && Read(view, SafetyScore) == None && Read(view, MedianRent) == None;
    Reading(view);
    hide ReactionOf;
  }

  lemma SellRecommended()
    ensures Builtin(ViewOf(BY_ZIP), None, None) == [Recommendation("list", 0.8)]
  {
    var view, rec := ViewOf(BY_ZIP), Recommendation("list", 0.8);
    var reaction := ReactionOf(None, view, None);
    SeenReaction(view, reaction);
    CollectedParts(view, reaction);
    hide ReactionOf, ListHold, Lease, Churn, Collected, ViewOf;
    assert Collected(POLICIES, view, reaction) == [rec] && [rec][1..] == [];
    assert Sorted([rec], DecisionPolicies.ScoreOf) == [rec];
  }

  lemma SeenSells()
    ensures DecisionFor(Builtin, Some(BY_ZIP), None, None).recommendation == SELL
  {
    var rec, one := Recommendation("list", 0.8), [Candidate(SELL, Round4(0.8))];
    SellRecommended();
    hide Builtin, ViewOf, Round4;
    assert [rec][..0] == [];
    assert Mapped([rec]) == one && one[..0] == [];
    assert Best(one) == one && Sorted(one, Rank) == one;
  }

  lemma UnseenHolds()
    ensures DecisionFor(Builtin, Some(BY_NEWEST), None, None).recommendation == HOLD
  {
    var view := ViewOf(BY_NEWEST);
    assert Read(view, InventoryPressure) == None && Read(view, SafetyScore) == None && Read(view, MedianRent) == None;
    var reaction := ReactionOf(None, view, None);
    Reading(view);
    CollectedParts(view, reaction);
    assert ListHold(view, reaction) == None && Lease(view, reaction) == None && Churn(view, reaction) == None;
    hide ReactionOf, ListHold, Lease, Churn, Collected;
    assert Builtin(view, None, None) == [];
    assert Mapped([]) == [] && Best([]) == [] && Sorted([], Rank) == [];
  }

  /** A value of one day and a null of the next: the holding service says sell, the summary says hold. */
  lemma NullFlipsDecision()
    ensures exists single, bulk ::
              && ResolvedSingly(Run([], [SEEN, NULLED]), map[], ZIP_ONLY, single)
              && ResolvedInBulk(Run([], [SEEN, NULLED]), map[], ZIP_ONLY, bulk)
              && DecisionFor(Builtin, single, None, None).recommendation == SELL
              && DecisionFor(Builtin, bulk, None, None).recommendation == HOLD
  {
    hide Run, ResolvedSingly, ResolvedInBulk, DecisionFor;
    NullResolved();
    SeenSells();
    UnseenHolds();
  }
}
