/** The seed list of the playlist generator page: genre suggestions, a bounded duplicate-free list
    of seeds, and the placeholder result of `generate`. */
module PlaylistGen {
  import opened Wrappers
  import opened Seqs
  import opened Strings

  const Popular: seq<string> := ["Pop", "Rock", "Hip-Hop", "Electronic", "Jazz", "Classical", "R&B", "Country"]
  const InitialSeeds: seq<string> := ["Rock", "Electronic"]
  const MaxSeeds: nat := 5

  /** `suggestions`: the popular genres whose lower-case form contains the lower-case query and
      that are not seeds yet, in list order. */
  function Suggestions(query: string, seeds: seq<string>): (r: seq<string>)
    ensures forall g :: g in r <==> g in Popular && Contains(Lower(g), Lower(query)) && g !in seeds
    ensures IsSubsequence(r, Popular)
  {
    var p := (g: string) => Contains(Lower(g), Lower(query)) && g !in seeds;
    FilterMembers(Popular, p);
    FilterIsSubsequence(Popular, p);
    Filter(Popular, p)
  }

  /** The `addSeed` updater: `s` is appended unless it is already a seed. */
  function WithSeed(seeds: seq<string>, s: string): (r: seq<string>)
    ensures s in r && (forall x :: x in r <==> x in seeds || x == s)
    ensures s in seeds ==> r == seeds
    ensures s !in seeds ==> r == seeds + [s]
    ensures NoDup(seeds) ==> NoDup(r)
  {
    if s in seeds then seeds
    else
      if NoDup(seeds) then AppendNoDup(seeds, s); seeds + [s]
      else seeds + [s]
  }

  /** The `removeSeed` updater: every occurrence of `s` is dropped, the rest keeps its order. */
  function WithoutSeed(seeds: seq<string>, s: string): (r: seq<string>)
    ensures forall x :: x in r <==> x in seeds && x != s
    ensures IsSubsequence(r, seeds)
    ensures NoDup(seeds) ==> NoDup(r)
  {
    var p := (x: string) => x != s;
    FilterMembers(seeds, p);
    FilterIsSubsequence(seeds, p);
    if NoDup(seeds) then FilterNoDup(seeds, p); Filter(seeds, p)
    else Filter(seeds, p)
  }

  /** The placeholder tracks `generate` shows for a seed list: none without seeds, otherwise one
      naming the first seed, one naming the last, and a mix. */
  function GeneratedFor(seeds: seq<string>): (r: seq<string>)
    ensures seeds == [] <==> r == []
    ensures seeds != [] ==>
              && |r| == 3
              && Contains(r[0], seeds[0]) && Contains(r[1], seeds[|seeds| - 1])
              && r[2] == "Track 3 — Mix"
  {
    if seeds == [] then []
    else
      var first := "Track 1 — " + seeds[0];
      var last := "Track 2 — " + seeds[|seeds| - 1];
      assert OccursAt(first, seeds[0], |first| - |seeds[0]|);
      assert OccursAt(last, seeds[|seeds| - 1], |last| - |seeds[|seeds| - 1]|);
      [first, last, "Track 3 — Mix"]
  }

  /** The page's state cells. `pending` holds, oldest first, the seed lists captured by the
      `generate` timeouts that have not fired yet. */
  class Generator {
    var query: string
    var seeds: seq<string>
    var generated: Option<seq<string>>
    var pending: seq<seq<string>>

    ghost predicate Valid()
      reads this
    {
      |seeds| <= MaxSeeds && NoDup(seeds)
    }

    constructor ()
      ensures Valid()
      ensures query == "" && seeds == InitialSeeds && generated == None && pending == []
    {
      query, seeds, generated, pending := "", InitialSeeds, None, [];
    }

    method SetQuery(q: string)
      requires Valid()
      modifies this
      ensures Valid()
      ensures query == q && seeds == old(seeds) && generated == old(generated) && pending == old(pending)
    {
      query := q;
    }

    /** `addSeed`: refused outright at five seeds; otherwise adds an absent seed and clears the query. */
    method AddSeed(s: string)
      requires Valid()
      modifies this
      ensures Valid()
      ensures generated == old(generated) && pending == old(pending)
      ensures |old(seeds)| >= MaxSeeds ==> seeds == old(seeds) && query == old(query)
      ensures |old(seeds)| < MaxSeeds ==> query == ""
      ensures seeds == Edited(old(seeds), Add(s))
    {
      if |seeds| >= MaxSeeds {
        return;
      }
      seeds := WithSeed(seeds, s);
      query := "";
    }

    /** `removeSeed`. */
    method RemoveSeed(s: string)
      requires Valid()
      modifies this
      ensures Valid()
      ensures seeds == Edited(old(seeds), Remove(s))
      ensures query == old(query) && generated == old(generated) && pending == old(pending)
    {
      seeds := WithoutSeed(seeds, s);
    }

    /** `generate`: clears the result and starts a timeout that will fill it from the seeds of now. */
    method Generate()
      requires Valid()
      modifies this
      ensures Valid()
      ensures generated == None && pending == old(pending) + [old(seeds)]
      ensures seeds == old(seeds) && query == old(query)
    {
      generated := None;
      pending := pending + [seeds];
    }

    /** The oldest pending `generate` timeout fires. */
    method FinishGenerate()
      requires Valid()
      modifies this
      ensures Valid()
      ensures old(pending) == [] ==> generated == old(generated) && pending == []
      ensures old(pending) != [] ==> generated == Some(GeneratedFor(old(pending)[0])) && pending == old(pending)[1..]
      ensures seeds == old(seeds) && query == old(query)
    {
      if pending != [] {
        generated := Some(GeneratedFor(pending[0]));
        pending := pending[1..];
      }
    }
  }

  /** A seed-list edit as the page's buttons issue it. */
  datatype SeedEdit = Add(seed: string) | Remove(seed: string)

  /** The seed list after one edit: `addSeed` does nothing at five seeds. */
  function Edited(seeds: seq<string>, edit: SeedEdit): (r: seq<string>)
    ensures edit.Add? && |seeds| >= MaxSeeds ==> r == seeds
    ensures edit.Add? && |seeds| < MaxSeeds ==> edit.seed in r
    ensures edit.Remove? ==> edit.seed !in r
    ensures forall x :: x in r && x != edit.seed ==> x in seeds
    ensures |seeds| <= MaxSeeds ==> |r| <= MaxSeeds
    ensures NoDup(seeds) ==> NoDup(r)
  {
    match edit
    case Add(s) => if |seeds| >= MaxSeeds then seeds else WithSeed(seeds, s)
    case Remove(s) => WithoutSeed(seeds, s)
  }

  /** The seed list after a run of edits, in order. Every seed it ends with was there at the start
      or was added by one of the edits. */
  function EditedAll(seeds: seq<string>, edits: seq<SeedEdit>): (r: seq<string>)
    ensures forall x :: x in r ==> x in seeds || Add(x) in edits
    decreases |edits|
  {
    if edits == [] then seeds else EditedAll(Edited(seeds, edits[0]), edits[1..])
  }

  /** Starting from the initial seeds, any run of `addSeed` and `removeSeed` keeps at most five
      distinct seeds. */
  lemma {:induction false} EditsKeepSeedsValid(seeds: seq<string>, edits: seq<SeedEdit>)
    requires |seeds| <= MaxSeeds && NoDup(seeds)
    ensures var r := EditedAll(seeds, edits); |r| <= MaxSeeds && NoDup(r)
    decreases |edits|
  {
    if edits != [] {
      EditsKeepSeedsValid(Edited(seeds, edits[0]), edits[1..]);
    }
  }

  lemma InitialEditsKeepSeedsValid(edits: seq<SeedEdit>)
    ensures var r := EditedAll(InitialSeeds, edits); |r| <= MaxSeeds && NoDup(r)
  {
    EditsKeepSeedsValid(InitialSeeds, edits);
  }
}
