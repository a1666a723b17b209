/** Creating cases by hand and moving them by PATCH (repositories/recovery_cases.py), as functions of the tables. */
module CaseSpec {
  import opened Outcomes
  import opened Lifecycle
  import opened Records
  import opened EngineInvariants
  import opened BaselineSpec
  import opened BaselineClaims

  // ---------------------------------------------------------------- surrounding whitespace

  /** How many characters the text starts with that are whitespace. */
  function Leading(text: string): (n: nat)
    ensures n <= |text| && (n < |text| ==> !Space(text[n]))
    ensures forall i :: 0 <= i < n ==> Space(text[i])
  {
    if text == [] || !Space(text[0]) then 0 else 1 + Leading(text[1..])
  }

  /** Where the text's last character that is not whitespace ends. */
  function Ending(text: string): (n: nat)
    ensures n <= |text| && (n > 0 ==> !Space(text[n - 1]))
    ensures forall i :: n <= i < |text| ==> Space(text[i])
  {
    if text == [] then 0
    else if !Space(text[|text| - 1]) then |text|
    else Ending(text[..|text| - 1])
  }

  /** `source_id.strip()`. */
  function Strip(text: string): string {
    if Leading(text) < Ending(text) then text[Leading(text)..Ending(text)] else ""
  }

  /** A text without whitespace at its ends. */
  predicate Trimmed(text: string) {
    text == "" || (!Space(text[0]) && !Space(text[|text| - 1]))
  }

  /** Stripping leaves the one trimmed text that differs from the given one only by whitespace around it. */
  lemma Stripped(text: string, left: string, middle: string, right: string)
    requires Blank(left) && Trimmed(middle) && Blank(right)
    ensures Trimmed(Strip(text))
    ensures Blank(text) <==> Strip(text) == ""
    ensures text == left + middle + right ==> Strip(text) == middle
  {
    var n, m := Leading(text), Ending(text);
    if text == left + middle + right {
      if middle == "" {
        assert forall i :: 0 <= i < |text| ==> Space(text[i]);
      } else {
        assert text[|left|] == middle[0];
        assert text[|left| + |middle| - 1] == middle[|middle| - 1];
        assert n == |left| && m == |left| + |middle|;
      }
    }
  }

  // ---------------------------------------------------------------- create

  predicate KnownExperiment(t: Trials, experiment: Option<ExperimentId>) {
    experiment.Some? ==> experiment.value < |t.experiments|
  }

  /** The row `create` builds from what was submitted. */
  function Submitted(draft: RecoveryCase): RecoveryCase {
    draft.(sourceId := Strip(draft.sourceId), status := AtRisk)
  }

  function WithCase(s: Store, row: RecoveryCase): Store {
    s.(cases := s.cases + [row])
  }

  /** `create`: validation first, then what the commit checks. */
  function CreateCase(core: Core, draft: RecoveryCase): Result<Store, Error> {
    var t := WithCase(core.store, Submitted(draft));
    if !ValidCase(Submitted(draft)) then Err(ValidationError)
    else if !KnownExperiment(core.trials, draft.experiment) || !Consistent(t) then Err(IntegrityError)
    else Ok(t)
  }

  /** A source id that is more than whitespace, something at risk, a currency of three capitals, and a
      window that ends after it starts. */
  predicate WellFormed(draft: RecoveryCase) {
    && (exists i :: 0 <= i < |draft.sourceId| && !Space(draft.sourceId[i]))
    && draft.amount > 0 && draft.windowStart < draft.windowEnd
    && |draft.currency| == 3 && 'A' <= draft.currency[0] <= 'Z' && 'A' <= draft.currency[1] <= 'Z'
    && 'A' <= draft.currency[2] <= 'Z'
  }

  lemma BlankStrips(text: string)
    ensures Blank(Strip(text)) <==> Blank(text)
  {
    Stripped(text, "", "", "");
  }

  lemma WellFormedMeans(draft: RecoveryCase)
    ensures WellFormed(draft) <==> ValidCase(Submitted(draft))
  {
    BlankStrips(draft.sourceId);
  }

  /** The merchant has no case for this source. */
  ghost predicate Unknown(s: Store, merchant: MerchantId, source: SourceType, id: string) {
    forall i :: 0 <= i < |s.cases| ==>
      s.cases[i].merchant != merchant || s.cases[i].source != source || s.cases[i].sourceId != id
  }

  /** A submitted case is stored exactly when it is well formed, its merchant, customer and experiment exist,
      and the merchant has no case for that source yet, whitespace around the id aside; it is stored as
      submitted, but for that whitespace and for being AT_RISK, and nothing else changes. */
  lemma CreateAccepted(core: Core, draft: RecoveryCase)
    requires Consistent(core.store)
    ensures CreateCase(core, draft).Ok? <==>
              && WellFormed(draft) && draft.merchant in core.store.merchants
              && (draft.customer.Some? ==> draft.customer.value in core.store.customers)
              && (draft.experiment.Some? ==> draft.experiment.value < |core.trials.experiments|)
              && Unknown(core.store, draft.merchant, draft.source, Strip(draft.sourceId))
    ensures CreateCase(core, draft) == Err(ValidationError) <==> !WellFormed(draft)
    ensures CreateCase(core, draft).Ok? ==>
              CreateCase(core, draft).value ==
                core.store.(cases := core.store.cases + [draft.(sourceId := Strip(draft.sourceId), status := AtRisk)])
  {
    WellFormedMeans(draft);
    CreateDecided(core, draft);
  }

  lemma CreateDecided(core: Core, draft: RecoveryCase)
    requires Consistent(core.store)
    ensures CreateCase(core, draft).Ok? <==>
              && ValidCase(Submitted(draft))
              && draft.merchant in core.store.merchants && KnownCustomer(core.store, draft.customer)
              && KnownExperiment(core.trials, draft.experiment)
              && FindOwned(core.store.cases, draft.merchant, draft.source, Strip(draft.sourceId)).None?
    ensures CreateCase(core, draft) == Err(ValidationError) <==> !ValidCase(Submitted(draft))
  {
    var s, row := core.store, Submitted(draft);
    var t := WithCase(s, row);
    var found := FindOwned(s.cases, row.merchant, row.source, row.sourceId);
    assert t.cases[|s.cases|] == row;
    if found.Some? {
      assert SameSource(t.cases[found.value], t.cases[|s.cases|]);
    } else if ValidCase(row) && CaseRefsOk(s, row) {
      WithCaseConsistent(s, row);
    }
    assert Consistent(t) ==> CaseRefsOk(t, t.cases[|s.cases|]);
  }

  lemma WithCaseConsistent(s: Store, row: RecoveryCase)
    requires Consistent(s) && ValidCase(row) && CaseRefsOk(s, row)
    requires FindOwned(s.cases, row.merchant, row.source, row.sourceId).None?
    ensures Consistent(WithCase(s, row))
  {
  }

  /** Of the experiment tables a new case can only break its own reference. */
  lemma WithCaseTrials(s: Store, t: Trials, row: RecoveryCase)
    requires TrialsRefsOk(s, t)
    ensures TrialsRefsOk(WithCase(s, row), t) <==> KnownExperiment(t, row.experiment)
  {
    assert WithCase(s, row).cases[|s.cases|] == row;
  }

  lemma CreateKeeps(core: Core, draft: RecoveryCase)
    requires CreateCase(core, draft).Ok?
    ensures var t := CreateCase(core, draft).value;
            && Sound(core.store, t) && Consistent(t)
            && (TrialsOk(core) ==> TrialsOk(core.(store := t)))
  {
  }

  // ---------------------------------------------------------------- transition

  /** `transition`: what PATCH does to one case. */
  function Patch(s: Store, c: CaseId, target: Status): Result<Store, Error> {
    if c >= |s.cases| then Err(NotFoundError)
    else
      match TransitionTo(s.cases[c].status, target)
      case Err(_) => Err(TransitionRejected)
      case Ok(status) => Ok(s.(cases := s.cases[c := s.cases[c].(status := status)]))
  }

  /** A PATCH is accepted exactly on a case that is there and may move so. */
  lemma PatchAccepted(s: Store, c: CaseId, target: Status)
    ensures Patch(s, c, target).Ok? <==> c < |s.cases| && TransitionTo(s.cases[c].status, target).Ok?
    ensures Patch(s, c, target) == Err(NotFoundError) <==> c >= |s.cases|
    ensures Patch(s, c, target).Ok? ==>
              Patch(s, c, target).value == s.(cases := s.cases[c := s.cases[c].(status := target)])
  {
  }

  /** A PATCH is accepted only on a live case, keeps every invariant, and moves that one status only. */
  lemma PatchKeeps(core: Core, c: CaseId, target: Status)
    requires Patch(core.store, c, target).Ok?
    ensures var t := Patch(core.store, c, target).value;
            && c < |core.store.cases| && !Terminal(core.store.cases[c].status) && t.cases[c].status == target
            && Sound(core.store, t) && (Consistent(core.store) ==> Consistent(t))
            && (TrialsOk(core) ==> TrialsOk(core.(store := t)))
  {
    var s := core.store;
    LiveRowWritten(s, c, s.cases[c].(status := target));
    if TrialsOk(core) {
      TrialsSurvive(core, Patch(s, c, target).value);
    }
  }

  lemma PatchTrials(core: Core, c: CaseId, target: Status)
    requires Patch(core.store, c, target).Ok? && TrialsRefsOk(core.store, core.trials)
    ensures TrialsRefsOk(Patch(core.store, c, target).value, core.trials)
  {
  }
}
