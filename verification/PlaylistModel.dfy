/**
 * The state kept by the playlist view-model of the VLC Android player:
 * the displayed dataset, the snapshot of it taken when filtering begins,
 * and the filtering flag, together with the lookup that maps a position
 * back into the unfiltered playlist.
 *
 * The playback service is abstracted away: its media list and its current
 * index are plain arguments, and the three mutations it performs for the
 * view-model (insert, remove, move) are returned as request values.
 * Media items are values compared with `==`.
 */
module Viewmodels {
  import opened Wrappers

  // ---------------------------------------------------------------------
  // The state as a value, and the transitions that specify the class
  // ---------------------------------------------------------------------

  /** The three fields of the view-model that its operations change. */
  datatype ModelState<T> = ModelState(
    dataset: seq<T>,
    originalDataset: Option<seq<T>>,
    filtering: bool)

  /** The coupled invariant: a snapshot is held exactly while filtering. */
  ghost predicate Inv<T>(s: ModelState<T>) {
    s.filtering <==> s.originalDataset.Some?
  }

  /** The state of a freshly built view-model: empty, not filtering, no snapshot. */
  function Initial<T>(): (r: ModelState<T>)
    ensures Inv(r) && !r.filtering && r.dataset == []
  {
    ModelState([], None, false)
  }

  /** The synchronous effect of `filter(query)`: only the null-ness of the query matters. */
  function Filtered<T>(s: ModelState<T>, query: Option<string>): (r: ModelState<T>)
    ensures r.dataset == s.dataset
    ensures r.filtering == query.Some?
    // a call that does not change the mode changes nothing
    ensures s.filtering == query.Some? ==> r == s
    // entering filtering mode snapshots the dataset as it was before the call
    ensures !s.filtering && query.Some? ==> r.originalDataset == Some(s.dataset)
    // leaving filtering mode drops the snapshot
    ensures s.filtering && query.None? ==> r.originalDataset == None
    ensures Inv(s) ==> Inv(r)
  {
    var filtering := query.Some?;
    if s.filtering != filtering then
      s.(filtering := filtering,
         originalDataset := if filtering then Some(s.dataset) else None)
    else
      s
  }

  /** The effect of `update`: the dataset becomes the service's media list. */
  function Updated<T>(s: ModelState<T>, medias: seq<T>): (r: ModelState<T>)
    ensures r.dataset == medias
    ensures r.filtering == s.filtering && r.originalDataset == s.originalDataset
    ensures Inv(r) <==> Inv(s)
  {
    s.(dataset := medias)
  }

  /** The list a position refers to: the snapshot if one is held, else the dataset. */
  function ActiveList<T>(s: ModelState<T>): (list: seq<T>)
    ensures Inv(s) && s.filtering ==> list == s.originalDataset.value
    ensures !s.filtering && Inv(s) ==> list == s.dataset
  {
    match s.originalDataset
    case Some(original) => original
    case None => s.dataset
  }

  /** The index of the first occurrence of `m` in `s`, or -1 when there is none. */
  function FirstIndexOf<T(==)>(s: seq<T>, m: T): (r: int)
    ensures -1 <= r < |s|
    ensures r == -1 <==> m !in s
    ensures r >= 0 ==> s[r] == m && forall j :: 0 <= j < r ==> s[j] != m
    decreases |s|
  {
    if |s| == 0 then -1
    else if s[0] == m then 0
    else
      var k := FirstIndexOf(s[1..], m);
      assert s == [s[0]] + s[1..];
      if k == -1 then -1 else k + 1
  }

  /**
   * What `getPlaylistPosition` computes on a list: the given position when
   * it still holds `media`, otherwise the first index holding it, or -1.
   */
  function Position<T(==)>(list: seq<T>, position: int, media: T): (r: int)
    requires 0 <= position < |list|
    ensures list[position] == media ==> r == position
    ensures -1 <= r < |list|
    ensures r == -1 <==> media !in list
    ensures r >= 0 ==> list[r] == media
    ensures list[position] != media && r >= 0 ==> forall j :: 0 <= j < r ==> list[j] != media
  {
    if list[position] == media then position else FirstIndexOf(list, media)
  }

  // ---------------------------------------------------------------------
  // Service requests
  // ---------------------------------------------------------------------

  /** The mutations the view-model forwards, unchanged, to the playback service. */
  datatype ServiceRequest<T> =
    | InsertItem(position: int, media: T)
    | RemoveItem(position: int)
    | MoveItem(from: int, to: int)

  // ---------------------------------------------------------------------
  // The view-model
  // ---------------------------------------------------------------------

  class PlaylistModel<T(==)> {
    var dataset: seq<T>
    var originalDataset: Option<seq<T>>
    var filtering: bool

    function State(): (s: ModelState<T>)
      reads this
    {
      ModelState(dataset, originalDataset, filtering)
    }

    ghost predicate Valid()
      reads this
    {
      Inv(State())
    }

    /** The dataset starts empty, with no filter and no snapshot. */
    constructor ()
      ensures Valid()
      ensures State() == Initial()
    {
      dataset := [];
      originalDataset := None;
      filtering := false;
    }

    /**
     * The selected row: the service's current index, or -1 while filtering
     * (a position in the filtered view would not be the playing one).
     */
    function Selection(currentIndex: int): (r: int)
      reads this
      ensures filtering ==> r == -1
      ensures !filtering ==> r == currentIndex
      ensures Valid() && currentIndex >= 0 ==> (r >= 0 <==> originalDataset.None?)
    {
      if filtering then -1 else currentIndex
    }

    /** Initial synchronisation; registering with the service is not modelled. */
    method Setup(medias: seq<T>)
      modifies this`dataset
      ensures State() == Updated(old(State()), medias)
      ensures old(Valid()) ==> Valid()
    {
      Update(medias);
    }

    /** Replaces the dataset by a copy of the service's media list. */
    method Update(medias: seq<T>)
      modifies this`dataset
      ensures State() == Updated(old(State()), medias)
      ensures old(Valid()) ==> Valid()
    {
      dataset := medias;
    }

    method InsertMedia(position: int, media: T) returns (request: ServiceRequest<T>)
      ensures request == InsertItem(position, media)
      ensures unchanged(this)
    {
      request := InsertItem(position, media);
    }

    method Remove(position: int) returns (request: ServiceRequest<T>)
      ensures request == RemoveItem(position)
      ensures unchanged(this)
    {
      request := RemoveItem(position);
    }

    method Move(from: int, to: int) returns (request: ServiceRequest<T>)
      ensures request == MoveItem(from, to)
      ensures unchanged(this)
    {
      request := MoveItem(from, to);
    }

    /**
     * Switches the filtering mode by the null-ness of `query`; the filter
     * pass itself, which later replaces the dataset, is not modelled.
     */
    method Filter(query: Option<string>)
      modifies this`filtering, this`originalDataset
      ensures State() == Filtered(old(State()), query)
      ensures old(Valid()) ==> Valid()
      ensures forall currentIndex :: Selection(currentIndex) == if query.Some? then -1 else currentIndex
    {
      var filtering := query.Some?;
      if this.filtering != filtering {
        this.filtering := filtering;
        originalDataset := if filtering then Some(dataset) else None;
      }
    }

    /**
     * Looks `media` up in the snapshot if one is held, else in the dataset:
     * the given position when it still holds `media`, else a scan.
     */
    method GetPlaylistPosition(position: int, media: T) returns (r: int)
      requires 0 <= position < |ActiveList(State())|
      ensures r == Position(ActiveList(State()), position, media)
    {
      var list := ActiveList(State());
      if list[position] == media {
        return position;
      }
      var i := 0;
      while i < |list|
        invariant 0 <= i <= |list|
        invariant forall j :: 0 <= j < i ==> list[j] != media
      {
        if list[i] == media {
          return i;
        }
        i := i + 1;
      }
      return -1;
    }
  }

  // ---------------------------------------------------------------------
  // Sequences of operations
  // ---------------------------------------------------------------------

  /** One call on the view-model; a forwarded request changes no local state. */
  datatype Op<T> =
    | UpdateOp(medias: seq<T>)
    | FilterOp(query: Option<string>)
    | ForwardOp(request: ServiceRequest<T>)

  predicate ClearsFilter<T>(op: Op<T>) {
    op.FilterOp? && op.query.None?
  }

  function Step<T>(s: ModelState<T>, op: Op<T>): (r: ModelState<T>) {
    match op
    case UpdateOp(medias) => Updated(s, medias)
    case FilterOp(query) => Filtered(s, query)
    case ForwardOp(_) => s
  }

  function Run<T>(s: ModelState<T>, ops: seq<Op<T>>): (r: ModelState<T>)
    decreases |ops|
  {
    if ops == [] then s else Run(Step(s, ops[0]), ops[1..])
  }

  lemma {:induction false} RunAppend<T>(s: ModelState<T>, a: seq<Op<T>>, b: seq<Op<T>>)
    ensures Run(s, a + b) == Run(Run(s, a), b)
    decreases |a|
  {
    if a == [] {
      assert a + b == b;
    } else {
      assert (a + b)[1..] == a[1..] + b;
      RunAppend(Step(s, a[0]), a[1..], b);
    }
  }

  /** Every operation keeps the invariant. */
  lemma {:induction false} RunKeepsInv<T>(s: ModelState<T>, ops: seq<Op<T>>)
    requires Inv(s)
    ensures Inv(Run(s, ops))
    decreases |ops|
  {
    if ops != [] {
      RunKeepsInv(Step(s, ops[0]), ops[1..]);
    }
  }

  /** Every state reachable from a fresh view-model holds a snapshot exactly while filtering. */
  lemma ReachableInv<T>(ops: seq<Op<T>>)
    ensures Inv(Run(Initial<T>(), ops))
  {
    RunKeepsInv(Initial<T>(), ops);
  }

  /** While filtering, nothing but `filter(null)` touches the snapshot: it is never retaken. */
  lemma {:induction false} SnapshotKeptWhileFiltering<T>(s: ModelState<T>, ops: seq<Op<T>>)
    requires s.filtering
    requires forall i :: 0 <= i < |ops| ==> !ClearsFilter(ops[i])
    ensures Run(s, ops).filtering
    ensures Run(s, ops).originalDataset == s.originalDataset
    decreases |ops|
  {
    if ops != [] {
      assert !ClearsFilter(ops[0]);
      SnapshotKeptWhileFiltering(Step(s, ops[0]), ops[1..]);
    }
  }

  /**
   * The snapshot held while filtering is the dataset as it was just before
   * the call that entered filtering mode, whatever happened since.
   */
  lemma SnapshotIsPreFilterDataset<T>(s: ModelState<T>, before: seq<Op<T>>, query: string, after: seq<Op<T>>)
    requires !Run(s, before).filtering
    requires forall i :: 0 <= i < |after| ==> !ClearsFilter(after[i])
    ensures Run(s, before + [FilterOp(Some(query))] + after).filtering
    ensures Run(s, before + [FilterOp(Some(query))] + after).originalDataset == Some(Run(s, before).dataset)
  {
    var enter := FilterOp(Some(query));
    RunAppend(s, before + [enter], after);
    RunAppend(s, before, [enter]);
    var t := Run(s, before);
    assert Run(t, [enter]) == Filtered(t, Some(query));
    SnapshotKeptWhileFiltering(Filtered(t, Some(query)), after);
  }

  /** Entering and then leaving filtering mode restores the state exactly. */
  lemma FilterRoundTrip<T>(s: ModelState<T>, query: string)
    requires Inv(s) && !s.filtering
    ensures Filtered(Filtered(s, Some(query)), None) == s
  {
  }

  /** dataset = [A, B, C] with A != B: looking B up at position 0 falls back to the scan and finds 1. */
  lemma PositionFallbackExample<T>(a: T, b: T, c: T)
    requires a != b
    ensures Position([a, b, c], 0, b) == 1
  {
    var list := [a, b, c];
    assert list[1] == b;
  }
}
