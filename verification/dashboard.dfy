/** The dashboard's decisions: a search over board names only, the board
    count's label and the guard on creating a board. */
module Dashboard {
  import opened Wrappers
  import opened Strings
  import opened Seqs
  import opened SharedTypes
  import Sidebar

  /** Unlike the sidebar, tags play no part. */
  function FilterBoards(boards: seq<BoardMetadata>, query: string): (r: seq<BoardMetadata>)
    ensures forall b :: b in r <==> b in boards && Sidebar.Mentions(b.name, query)
    ensures |r| <= |boards|
  {
    Filter(boards, (b: BoardMetadata) => Sidebar.Mentions(b.name, query))
  }

  /** The dashboard keeps the list order and every board on the empty
      query, and what it keeps is what the sidebar keeps, narrowed to the
      boards whose name matches. */
  lemma FilterBoardsRelations(xs: seq<BoardMetadata>, ys: seq<BoardMetadata>, query: string)
    ensures FilterBoards(xs + ys, query) == FilterBoards(xs, query) + FilterBoards(ys, query)
    ensures FilterBoards(xs, "") == xs
    ensures FilterBoards(xs, query) == FilterBoards(Sidebar.FilterBoards(xs, query), query)
  {
    FilterDistributes(xs, ys, (b: BoardMetadata) => Sidebar.Mentions(b.name, query));
    forall i | 0 <= i < |xs| ensures Sidebar.Mentions(xs[i].name, "") {
      EmptyIncludedEverywhere(ToLower(xs[i].name));
    }
    FilterKeepsAll(xs, (b: BoardMetadata) => Sidebar.Mentions(b.name, ""));
    FilterNarrows(xs, (b: BoardMetadata) => Sidebar.Mentions(b.name, query),
                  (b: BoardMetadata) => Sidebar.Matches(b, query));
  }

  /** The noun after the board count. */
  function CountNoun(count: nat): (r: string)
    ensures r == "board" <==> count == 1
    ensures r == "board" || r == "boards"
  {
    if count == 1 then "board" else "boards"
  }

  /** The name a new board is created with: the prompt's answer unless it
      was cancelled or left empty. Unlike renaming, it is not trimmed, so a
      blank name goes to the server as it is. */
  function CreateWith(answer: Option<string>): (r: Option<string>)
    ensures r.Some? <==> answer.Some? && |answer.value| > 0
    ensures r.Some? ==> r == answer
  {
    if answer.Some? && |answer.value| > 0 then answer else None
  }
}
