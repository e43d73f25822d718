/**
 The idea picker (components/ConceptIdeaSelector.tsx): a selection of at most
 two concept ideas, identified by title, where clicking an idea toggles it.
 */
module IdeaSelector {
  import opened Types

  /** The most ideas the picker lets a user hold at once. */
  const MaxSelected: nat := 2

  /** isIdeaSelected: some selected entry carries the idea's title. */
  function IsIdeaSelected(sel: seq<ConceptIdea>, idea: ConceptIdea): (r: bool)
    ensures r <==> exists i :: 0 <= i < |sel| && sel[i].title == idea.title
  {
    if |sel| == 0 then false
    else if sel[0].title == idea.title then true
    else
      var rest := IsIdeaSelected(sel[1..], idea);
      assert forall j :: 1 <= j < |sel| ==> sel[j] == sel[1..][j - 1];
      rest
  }

  /** The selection without any entry titled `t`, the others kept in order. */
  function RemoveTitle(sel: seq<ConceptIdea>, t: string): (r: seq<ConceptIdea>)
    ensures forall x :: x in r <==> x in sel && x.title != t
    ensures |r| <= |sel|
  {
    if |sel| == 0 then []
    else if sel[0].title == t then RemoveTitle(sel[1..], t)
    else [sel[0]] + RemoveTitle(sel[1..], t)
  }

  predicate DistinctTitles(sel: seq<ConceptIdea>)
  {
    forall i, j :: 0 <= i < j < |sel| ==> sel[i].title != sel[j].title
  }

  /**
   canConfirm: exactly two ideas are held. A confirmable picker is full (a
   click on an unselected idea is ignored), and a valid one holds two
   different titles.
   */
  function CanConfirm(sel: seq<ConceptIdea>): (r: bool)
    ensures r ==> forall idea :: !IsIdeaSelected(sel, idea) ==> HandleSelect(sel, idea, false) == sel
    ensures r && DistinctTitles(sel) ==> |sel| > 1 && sel[0].title != sel[1].title
    ensures !r && |sel| <= MaxSelected ==>
              forall idea :: !IsIdeaSelected(sel, idea) ==> HandleSelect(sel, idea, false) == sel + [idea]
  {
    |sel| == MaxSelected
  }

  /** What the picker can hold: at most two ideas, no title twice. */
  predicate Valid(sel: seq<ConceptIdea>)
  {
    |sel| <= MaxSelected && DistinctTitles(sel)
  }

  /**
   handleSelect: ignored while loading; otherwise a selected title is
   deselected, and an unselected idea is appended while there is room.
   */
  function HandleSelect(sel: seq<ConceptIdea>, idea: ConceptIdea, isLoading: bool): (r: seq<ConceptIdea>)
    ensures IsIdeaSelected(r, idea) <==>
              if isLoading then IsIdeaSelected(sel, idea)
              else !IsIdeaSelected(sel, idea) && |sel| < MaxSelected
    ensures Valid(sel) ==> Valid(r)
  {
    if isLoading then sel
    else if IsIdeaSelected(sel, idea) then
      RemoveTitlePreservesDistinct(sel, idea.title);
      RemoveTitle(sel, idea.title)
    else if |sel| < MaxSelected then
      assert (sel + [idea])[|sel|] == idea;
      sel + [idea]
    else sel
  }

  lemma {:induction false} RemoveTitlePreservesDistinct(sel: seq<ConceptIdea>, t: string)
    ensures DistinctTitles(sel) ==> DistinctTitles(RemoveTitle(sel, t))
  {
    if |sel| > 0 && DistinctTitles(sel) {
      var rest := sel[1..];
      assert DistinctTitles(rest) by {
        forall i, j | 0 <= i < j < |rest| ensures rest[i].title != rest[j].title {
          assert rest[i] == sel[i + 1] && rest[j] == sel[j + 1];
        }
      }
      RemoveTitlePreservesDistinct(rest, t);
      if sel[0].title != t {
        var tail := RemoveTitle(rest, t);
        var r := [sel[0]] + tail;
        FirstTitleNotRepeated(sel);
        forall k | 0 <= k < |tail| ensures tail[k].title != sel[0].title {
          assert tail[k] in rest;
        }
        forall i, j | 0 <= i < j < |r| ensures r[i].title != r[j].title {
          if i == 0 {
            assert r[j] == tail[j - 1];
          } else {
            assert r[i] == tail[i - 1] && r[j] == tail[j - 1];
          }
        }
      }
    }
  }

  /** With distinct titles, no later entry repeats the first entry's title. */
  lemma FirstTitleNotRepeated(sel: seq<ConceptIdea>)
    requires |sel| > 0 && DistinctTitles(sel)
    ensures forall x :: x in sel[1..] ==> x.title != sel[0].title
  {
    forall x | x in sel[1..] ensures x.title != sel[0].title {
      var j :| 0 <= j < |sel| - 1 && sel[1..][j] == x;
      assert sel[j + 1] == x;
    }
  }

  /** Removing a title nobody carries leaves the selection as it was. */
  lemma {:induction false} RemoveAbsentTitle(sel: seq<ConceptIdea>, t: string)
    requires forall i :: 0 <= i < |sel| ==> sel[i].title != t
    ensures RemoveTitle(sel, t) == sel
  {
    if |sel| > 0 {
      RemoveAbsentTitle(sel[1..], t);
      assert [sel[0]] + sel[1..] == sel;
    }
  }

  /** Removal works entry by entry, so it keeps the survivors' relative order. */
  lemma {:induction false} RemoveTitleConcat(a: seq<ConceptIdea>, b: seq<ConceptIdea>, t: string)
    ensures RemoveTitle(a + b, t) == RemoveTitle(a, t) + RemoveTitle(b, t)
  {
    if |a| == 0 {
      assert a + b == b;
    } else {
      assert (a + b)[1..] == a[1..] + b;
      RemoveTitleConcat(a[1..], b, t);
    }
  }

  /** Selecting an unselected idea while there is room appends it at the end. */
  lemma SelectAppends(sel: seq<ConceptIdea>, idea: ConceptIdea)
    requires !IsIdeaSelected(sel, idea) && |sel| < MaxSelected
    ensures HandleSelect(sel, idea, false) == sel + [idea]
  {
  }

  /** With two ideas held, selecting a third changes nothing. */
  lemma SelectAtCapacity(sel: seq<ConceptIdea>, idea: ConceptIdea)
    requires !IsIdeaSelected(sel, idea) && |sel| >= MaxSelected
    ensures HandleSelect(sel, idea, false) == sel
  {
  }

  /** Selecting a held title removes every entry with it and keeps the rest in order. */
  lemma DeselectRemovesTitle(sel: seq<ConceptIdea>, idea: ConceptIdea)
    requires IsIdeaSelected(sel, idea)
    ensures HandleSelect(sel, idea, false) == RemoveTitle(sel, idea.title)
    ensures !IsIdeaSelected(HandleSelect(sel, idea, false), idea)
    ensures |HandleSelect(sel, idea, false)| < |sel|
  {
    var i :| 0 <= i < |sel| && sel[i].title == idea.title;
    assert sel == sel[..i] + [sel[i]] + sel[i + 1..];
    RemoveTitleConcat(sel[..i] + [sel[i]], sel[i + 1..], idea.title);
    RemoveTitleConcat(sel[..i], [sel[i]], idea.title);
    assert RemoveTitle([sel[i]], idea.title) == [];
  }

  /** Nothing a click does while loading. */
  lemma SelectWhileLoading(sel: seq<ConceptIdea>, idea: ConceptIdea)
    ensures HandleSelect(sel, idea, true) == sel
  {
  }

  /** Selecting the same unselected idea twice, with room for it, restores the selection. */
  lemma ToggleTwiceRestores(sel: seq<ConceptIdea>, idea: ConceptIdea)
    requires !IsIdeaSelected(sel, idea) && |sel| < MaxSelected
    ensures HandleSelect(HandleSelect(sel, idea, false), idea, false) == sel
  {
    var once := sel + [idea];
    assert HandleSelect(sel, idea, false) == once;
    assert IsIdeaSelected(once, idea) by { assert once[|sel|] == idea; }
    RemoveTitleConcat(sel, [idea], idea.title);
    RemoveAbsentTitle(sel, idea.title);
    assert RemoveTitle([idea], idea.title) == [];
  }

  /**
   Confirming needs two clicks on differently titled ideas: from the empty
   picker, one click is not enough, and a second, different one appends it.
   */
  lemma TwoDistinctClicksConfirm(a: ConceptIdea, b: ConceptIdea)
    requires a.title != b.title
    ensures !CanConfirm(SelectAll([], [a], false))
    ensures SelectAll([], [a, b], false) == [a, b]
    ensures CanConfirm(SelectAll([], [a, b], false))
  {
    var one := HandleSelect([], a, false);
    assert one == [a];
    assert !IsIdeaSelected(one, b);
    assert SelectAll([], [a, b], false) == SelectAll(one, [b], false) by {
      assert [a, b][1..] == [b];
    }
    assert SelectAll(one, [b], false) == SelectAll([a, b], [], false) by {
      assert HandleSelect(one, b, false) == [a, b];
      assert [b][1..] == [];
    }
  }

  /** The picker's state after a run of clicks, starting from `sel`. */
  function SelectAll(sel: seq<ConceptIdea>, clicks: seq<ConceptIdea>, isLoading: bool): seq<ConceptIdea>
    decreases |clicks|
  {
    if |clicks| == 0 then sel
    else SelectAll(HandleSelect(sel, clicks[0], isLoading), clicks[1..], isLoading)
  }

  /** Every selection reachable by clicks from a valid one (the empty one included) holds at most two ideas with distinct titles. */
  lemma {:induction false} ClicksKeepSelectionValid(sel: seq<ConceptIdea>, clicks: seq<ConceptIdea>, isLoading: bool)
    requires Valid(sel)
    ensures Valid(SelectAll(sel, clicks, isLoading))
    ensures CanConfirm(SelectAll(sel, clicks, isLoading)) ==>
              SelectAll(sel, clicks, isLoading)[0].title != SelectAll(sel, clicks, isLoading)[1].title
    decreases |clicks|
  {
    if |clicks| > 0 {
      ClicksKeepSelectionValid(HandleSelect(sel, clicks[0], isLoading), clicks[1..], isLoading);
    }
  }
}
