/**
 * The list-sidebar helpers of the dashboard: the uniqueness check run when a
 * list is created or renamed, and the search filter over the sidebar's local
 * and followed lists.
 */
module ListsSidebarUtil {

  import opened Wrappers
  import opened Strings

  /** The part of a list's data the helpers read. */
  datatype ListData = ListData(name: string)

  /** One group of lists in the sidebar, in display order. */
  datatype ListGroup = ListGroup(allListIds: seq<int>)

  /** The slice of the dashboard state the helpers take: `listData`, `localLists`, `followedLists`. */
  datatype ListsState = ListsState(
    listData: map<int, ListData>,
    localLists: ListGroup,
    followedLists: ListGroup)

  datatype FilteredLists = FilteredLists(localListIds: seq<int>, followedListIds: seq<int>)

  // ---------------------------------------------------------------- isListNameUnique

  /** Every id the fold looks up, that is every id other than the skipped one, has list data. */
  ghost predicate LookupsDefined(ids: seq<int>, listData: map<int, ListData>, listIdToSkip: Option<int>)
  {
    forall i :: 0 <= i < |ids| && listIdToSkip != Some(ids[i]) ==> ids[i] in listData
  }

  /** List `id` is not the skipped one and already carries exactly `name`. */
  ghost predicate Clashes(name: string, listData: map<int, ListData>, listIdToSkip: Option<int>, id: int)
  {
    listIdToSkip != Some(id) && id in listData && listData[id].name == name
  }

  /** Some id of `ids` clashes with `name`. */
  ghost predicate NameTaken(name: string, ids: seq<int>, listData: map<int, ListData>, listIdToSkip: Option<int>)
  {
    exists i :: 0 <= i < |ids| && Clashes(name, listData, listIdToSkip, ids[i])
  }

  /** One step of the `reduce`: the skipped id leaves the accumulator alone. */
  function UniqueStep(name: string, listData: map<int, ListData>, listIdToSkip: Option<int>, acc: bool, listId: int): bool
    requires listIdToSkip != Some(listId) ==> listId in listData
  {
    if listIdToSkip == Some(listId) then acc else acc && listData[listId].name != name
  }

  /** The left fold of UniqueStep over `ids`, starting from `acc`. */
  function FoldUnique(name: string, listData: map<int, ListData>, listIdToSkip: Option<int>, ids: seq<int>, acc: bool): (r: bool)
    requires LookupsDefined(ids, listData, listIdToSkip)
    ensures r <==> acc && !NameTaken(name, ids, listData, listIdToSkip)
    decreases |ids|
  {
    if ids == [] then acc
    else
      var rest := FoldUnique(name, listData, listIdToSkip, ids[1..], UniqueStep(name, listData, listIdToSkip, acc, ids[0]));
      assert NameTaken(name, ids, listData, listIdToSkip) <==>
        Clashes(name, listData, listIdToSkip, ids[0]) || NameTaken(name, ids[1..], listData, listIdToSkip)
      by {
        if NameTaken(name, ids, listData, listIdToSkip) {
          var i :| 0 <= i < |ids| && Clashes(name, listData, listIdToSkip, ids[i]);
          if i > 0 {
            assert ids[1..][i - 1] == ids[i];
          }
        }
        if NameTaken(name, ids[1..], listData, listIdToSkip) {
          var i :| 0 <= i < |ids[1..]| && Clashes(name, listData, listIdToSkip, ids[1..][i]);
          assert ids[i + 1] == ids[1..][i];
        }
      }
      rest
  }

  /**
   * A name is unique when no local list other than `listIdToSkip` already has
   * exactly that name. Followed lists are not consulted.
   */
  function IsListNameUnique(name: string, state: ListsState, listIdToSkip: Option<int>): (r: bool)
    requires LookupsDefined(state.localLists.allListIds, state.listData, listIdToSkip)
    ensures r <==> !exists i :: 0 <= i < |state.localLists.allListIds| &&
                     var id := state.localLists.allListIds[i];
                     Some(id) != listIdToSkip && state.listData[id].name == name
  {
    FoldUnique(name, state.listData, listIdToSkip, state.localLists.allListIds, true)
  }

  /** With no local lists every name is unique, since the fold starts at `true`. */
  lemma NoListsEveryNameUnique(name: string, state: ListsState, listIdToSkip: Option<int>)
    requires state.localLists.allListIds == []
    ensures IsListNameUnique(name, state, listIdToSkip)
  {
  }

  /**
   * The skipped list's own name is never held against it: whatever that list
   * is called, the verdict is the same, so renaming a list to its current
   * name is allowed unless another list has it.
   */
  lemma SkippedListIgnored(name: string, state: ListsState, id: int, other: ListData)
    requires LookupsDefined(state.localLists.allListIds, state.listData, Some(id))
    ensures IsListNameUnique(name, state, Some(id)) ==
            IsListNameUnique(name, state.(listData := state.listData[id := other]), Some(id))
  {
  }

  /** Renaming list `id` to the name it already has is accepted when no other local list has that name. */
  lemma RenameToOwnNameIsUnique(state: ListsState, id: int)
    requires id in state.listData
    requires LookupsDefined(state.localLists.allListIds, state.listData, Some(id))
    requires forall other :: other in state.localLists.allListIds && other != id && other in state.listData ==>
               state.listData[other].name != state.listData[id].name
    ensures IsListNameUnique(state.listData[id].name, state, Some(id))
  {
  }

  /** Followed lists never affect the verdict. */
  lemma FollowedListsIgnored(name: string, state: ListsState, followed: ListGroup, listIdToSkip: Option<int>)
    requires LookupsDefined(state.localLists.allListIds, state.listData, listIdToSkip)
    ensures IsListNameUnique(name, state, listIdToSkip) ==
            IsListNameUnique(name, state.(followedLists := followed), listIdToSkip)
  {
  }

  /**
   * An illustration of the exact-equality clause of IsListNameUnique's
   * contract: a name differing only in case from an existing list is unique.
   */
  lemma ComparisonIsCaseSensitive()
    ensures IsListNameUnique("work", ListsState(map[1 := ListData("Work")], ListGroup([1]), ListGroup([])), None)
    ensures !IsListNameUnique("Work", ListsState(map[1 := ListData("Work")], ListGroup([1]), ListGroup([])), None)
  {
  }

  // ---------------------------------------------------------------- filterListsByQuery

  /** `r` is `s` with some elements dropped, the rest kept in order. */
  ghost predicate IsSubsequence(r: seq<int>, s: seq<int>)
    decreases |s|
  {
    r == [] || (s != [] && ((r[0] == s[0] && IsSubsequence(r[1..], s[1..])) || IsSubsequence(r, s[1..])))
  }

  /** Every id of `ids` has list data. */
  ghost predicate AllKnown(ids: seq<int>, listData: map<int, ListData>)
  {
    forall i :: 0 <= i < |ids| ==> ids[i] in listData
  }

  /** The search predicate: the lower-cased name contains the already lower-cased query. */
  function MatchesQuery(listData: map<int, ListData>, normalizedQuery: string, listId: int): bool
    requires listId in listData
  {
    Includes(Lower(listData[listId].name), normalizedQuery)
  }

  /** `Array.prototype.filter` with MatchesQuery. */
  function FilterIds(ids: seq<int>, listData: map<int, ListData>, normalizedQuery: string): (r: seq<int>)
    requires AllKnown(ids, listData)
    ensures IsSubsequence(r, ids)
    ensures forall id :: id in r <==> id in ids && id in listData && MatchesQuery(listData, normalizedQuery, id)
    ensures forall id :: multiset(r)[id] ==
              if id in listData && MatchesQuery(listData, normalizedQuery, id) then multiset(ids)[id] else 0
    decreases |ids|
  {
    if ids == [] then []
    else
      var rest := FilterIds(ids[1..], listData, normalizedQuery);
      assert ids == [ids[0]] + ids[1..];
      assert multiset(ids) == multiset{ids[0]} + multiset(ids[1..]);
      if MatchesQuery(listData, normalizedQuery, ids[0]) then [ids[0]] + rest else rest
  }

  /**
   * Keeps, in their original order, the local and the followed list ids whose
   * names contain the query, ignoring case.
   */
  function FilterListsByQuery(query: string, state: ListsState): (r: FilteredLists)
    requires AllKnown(state.localLists.allListIds, state.listData)
    requires AllKnown(state.followedLists.allListIds, state.listData)
    ensures IsSubsequence(r.localListIds, state.localLists.allListIds)
    ensures IsSubsequence(r.followedListIds, state.followedLists.allListIds)
    ensures forall id :: id in r.localListIds <==>
              id in state.localLists.allListIds && Occurs(Lower(state.listData[id].name), Lower(query))
    ensures forall id :: id in r.followedListIds <==>
              id in state.followedLists.allListIds && Occurs(Lower(state.listData[id].name), Lower(query))
    ensures forall id :: multiset(r.localListIds)[id] ==
              if id in state.listData && Occurs(Lower(state.listData[id].name), Lower(query))
              then multiset(state.localLists.allListIds)[id] else 0
    ensures forall id :: multiset(r.followedListIds)[id] ==
              if id in state.listData && Occurs(Lower(state.listData[id].name), Lower(query))
              then multiset(state.followedLists.allListIds)[id] else 0
  {
    var normalizedQuery := Lower(query);
    FilteredLists(
      FilterIds(state.localLists.allListIds, state.listData, normalizedQuery),
      FilterIds(state.followedLists.allListIds, state.listData, normalizedQuery))
  }

  /** Filtering with a query every name contains keeps the whole sequence. */
  lemma {:induction false} FilterKeepsAllForEmptyQuery(ids: seq<int>, listData: map<int, ListData>)
    requires AllKnown(ids, listData)
    ensures FilterIds(ids, listData, "") == ids
    decreases |ids|
  {
    if ids != [] {
      assert OccursAt(Lower(listData[ids[0]].name), "", 0);
      FilterKeepsAllForEmptyQuery(ids[1..], listData);
    }
  }

  /** The empty query returns every local and every followed list id. */
  lemma EmptyQueryKeepsAll(state: ListsState)
    requires AllKnown(state.localLists.allListIds, state.listData)
    requires AllKnown(state.followedLists.allListIds, state.listData)
    ensures FilterListsByQuery("", state) ==
            FilteredLists(state.localLists.allListIds, state.followedLists.allListIds)
  {
    FilterKeepsAllForEmptyQuery(state.localLists.allListIds, state.listData);
    FilterKeepsAllForEmptyQuery(state.followedLists.allListIds, state.listData);
  }

  /** Changing the case of the query does not change the result. */
  lemma QueryCaseIgnored(query: string, state: ListsState)
    requires AllKnown(state.localLists.allListIds, state.listData)
    requires AllKnown(state.followedLists.allListIds, state.listData)
    ensures FilterListsByQuery(Upper(query), state) == FilterListsByQuery(query, state)
    ensures FilterListsByQuery(Lower(query), state) == FilterListsByQuery(query, state)
  {
    LowerOfUpper(query);
    LowerIdempotent(query);
  }
}
