/**
 The copy picker (components/HookAndCtaSelector.tsx): one hook and one CTA per
 concept, held in two records keyed by the concept's optionName, defaulted
 from the generated sets and written back into the concepts on confirmation.
 */
module HookCtaSelector {
  import opened Types

  /** The first entry of a list, or the fallback when the list is empty. */
  function FirstOr(xs: seq<string>, fallback: string): (r: string)
    ensures |xs| > 0 ==> r == xs[0]
    ensures |xs| == 0 ==> r == fallback
  {
    if |xs| > 0 then xs[0] else fallback
  }

  /**
   getInitialState(i, 'hook'): the first generated hook of set i when set i
   exists and has one (an empty string counts), else the concept's own hook.
   */
  function InitialHook(concepts: seq<AdConcept>, sets: seq<HookAndCtaSet>, i: nat): (r: string)
    requires i < |concepts|
    ensures i < |sets| && |sets[i].hooks| > 0 ==> r == sets[i].hooks[0]
    ensures i >= |sets| || |sets[i].hooks| == 0 ==> r == concepts[i].hookLine
  {
    if i < |sets| then FirstOr(sets[i].hooks, concepts[i].hookLine) else concepts[i].hookLine
  }

  /** getInitialState(i, 'cta'), the same rule over the generated CTAs. */
  function InitialCta(concepts: seq<AdConcept>, sets: seq<HookAndCtaSet>, i: nat): (r: string)
    requires i < |concepts|
    ensures i < |sets| && |sets[i].ctas| > 0 ==> r == sets[i].ctas[0]
    ensures i >= |sets| || |sets[i].ctas| == 0 ==> r == concepts[i].cta
  {
    if i < |sets| then FirstOr(sets[i].ctas, concepts[i].cta) else concepts[i].cta
  }

  datatype Selector = Selector(
    concepts: seq<AdConcept>,
    sets: seq<HookAndCtaSet>,
    selectedHooks: map<string, string>,
    selectedCtas: map<string, string>)

  /**
   The initial records: keys concepts[0].optionName then concepts[1].optionName,
   so when both names coincide the second key's default is the one kept.
   */
  function Init(concepts: seq<AdConcept>, sets: seq<HookAndCtaSet>): (r: Selector)
    requires |concepts| >= 2
    ensures r.concepts == concepts && r.sets == sets
    ensures r.selectedHooks.Keys == r.selectedCtas.Keys == {concepts[0].optionName, concepts[1].optionName}
    ensures r.selectedHooks[concepts[1].optionName] == InitialHook(concepts, sets, 1)
    ensures r.selectedCtas[concepts[1].optionName] == InitialCta(concepts, sets, 1)
    ensures concepts[0].optionName != concepts[1].optionName ==>
              && r.selectedHooks[concepts[0].optionName] == InitialHook(concepts, sets, 0)
              && r.selectedCtas[concepts[0].optionName] == InitialCta(concepts, sets, 0)
  {
    var n0 := concepts[0].optionName;
    var n1 := concepts[1].optionName;
    Selector(
      concepts, sets,
      map[n0 := InitialHook(concepts, sets, 0)][n1 := InitialHook(concepts, sets, 1)],
      map[n0 := InitialCta(concepts, sets, 0)][n1 := InitialCta(concepts, sets, 1)])
  }

  /** The hook dropdown of the concept named `name` changed to `hook`. */
  function SelectHook(s: Selector, name: string, hook: string): (r: Selector)
    ensures name in r.selectedHooks && r.selectedHooks[name] == hook
    ensures r.selectedHooks.Keys == s.selectedHooks.Keys + {name}
    ensures forall k :: k in s.selectedHooks && k != name ==> r.selectedHooks[k] == s.selectedHooks[k]
    ensures r.selectedCtas == s.selectedCtas && r.concepts == s.concepts && r.sets == s.sets
  {
    s.(selectedHooks := s.selectedHooks[name := hook])
  }

  /** The CTA dropdown of the concept named `name` changed to `cta`. */
  function SelectCta(s: Selector, name: string, cta: string): (r: Selector)
    ensures name in r.selectedCtas && r.selectedCtas[name] == cta
    ensures r.selectedCtas.Keys == s.selectedCtas.Keys + {name}
    ensures forall k :: k in s.selectedCtas && k != name ==> r.selectedCtas[k] == s.selectedCtas[k]
    ensures r.selectedHooks == s.selectedHooks && r.concepts == s.concepts && r.sets == s.sets
  {
    s.(selectedCtas := s.selectedCtas[name := cta])
  }

  /** Every concept has a selection in both records. */
  predicate ConfirmReady(s: Selector)
  {
    forall c :: c in s.concepts ==> c.optionName in s.selectedHooks && c.optionName in s.selectedCtas
  }

  /** `concept` with its hook line and CTA replaced by the selections for its optionName. */
  function WithSelectedCopy(s: Selector, c: AdConcept): AdConcept
    requires c.optionName in s.selectedHooks && c.optionName in s.selectedCtas
  {
    c.(hookLine := s.selectedHooks[c.optionName], cta := s.selectedCtas[c.optionName])
  }

  /**
   handleConfirm: nothing while loading; otherwise the concepts, same length and
   order, each differing from its source only in hookLine and cta.
   */
  function Confirm(s: Selector, isLoading: bool): (r: Option<seq<AdConcept>>)
    requires !isLoading ==> ConfirmReady(s)
    ensures isLoading <==> r.None?
    ensures r.Some? ==> |r.value| == |s.concepts|
    ensures r.Some? ==> forall i :: 0 <= i < |r.value| ==>
              && r.value[i].hookLine == s.selectedHooks[s.concepts[i].optionName]
              && r.value[i].cta == s.selectedCtas[s.concepts[i].optionName]
              && r.value[i].(hookLine := s.concepts[i].hookLine, cta := s.concepts[i].cta) == s.concepts[i]
  {
    if isLoading then None
    else
      Some(seq(|s.concepts|, i requires 0 <= i < |s.concepts| => WithSelectedCopy(s, s.concepts[i])))
  }

  lemma InitIsReady(concepts: seq<AdConcept>, sets: seq<HookAndCtaSet>)
    requires |concepts| == 2
    ensures ConfirmReady(Init(concepts, sets))
  {
  }

  /** Changing a dropdown keeps every concept's selection in place. */
  lemma SelectionKeepsReady(s: Selector, name: string, v: string)
    requires ConfirmReady(s)
    ensures ConfirmReady(SelectHook(s, name, v)) && ConfirmReady(SelectCta(s, name, v))
  {
  }

  /** Confirming untouched defaults with distinct names writes each concept's own defaults. */
  lemma ConfirmDefaults(concepts: seq<AdConcept>, sets: seq<HookAndCtaSet>, i: nat)
    requires |concepts| == 2 && i < 2
    requires concepts[0].optionName != concepts[1].optionName
    ensures ConfirmReady(Init(concepts, sets))
    ensures Confirm(Init(concepts, sets), false).Some?
    ensures Confirm(Init(concepts, sets), false).value[i].hookLine == InitialHook(concepts, sets, i)
    ensures Confirm(Init(concepts, sets), false).value[i].cta == InitialCta(concepts, sets, i)
  {
  }

  /** Two concepts sharing an optionName share one selection: both get index 1's defaults. */
  lemma SharedOptionNameCollides(concepts: seq<AdConcept>, sets: seq<HookAndCtaSet>)
    requires |concepts| == 2
    requires concepts[0].optionName == concepts[1].optionName
    ensures ConfirmReady(Init(concepts, sets))
    ensures var r := Confirm(Init(concepts, sets), false);
            && r.Some?
            && r.value[0].hookLine == r.value[1].hookLine == InitialHook(concepts, sets, 1)
            && r.value[0].cta == r.value[1].cta == InitialCta(concepts, sets, 1)
  {
  }

  /** Choosing a hook for one concept changes only the concepts with that optionName. */
  lemma SelectHookThenConfirm(s: Selector, name: string, hook: string, i: nat)
    requires ConfirmReady(s) && i < |s.concepts|
    ensures ConfirmReady(SelectHook(s, name, hook))
    ensures var r := Confirm(SelectHook(s, name, hook), false).value;
            var before := Confirm(s, false).value;
            && (s.concepts[i].optionName == name ==> r[i].hookLine == hook)
            && (s.concepts[i].optionName != name ==> r[i] == before[i])
  {
  }
}
