/**
 The Cluster Autoscaler driving the bridge. Each of its loops reads the target size of a
 group, through the cache, and asks for what the demand exceeds it by. Reads take time,
 may fail, and are several per loop; POSTs may be refused or lose their reply, and one
 that was given up may still arrive; chunks are given back at any time, during a read as
 well. Nodes play no part: they may appear as late as they like. The question is whether
 more is ever reserved than was demanded.
 */
module Autoscaler {
  import opened Sets
  import opened Views
  import opened NodeGroupCache
  import ScaleBridge

  // ---------------------------------------------------------------------------
  // What happens, in any order
  // ---------------------------------------------------------------------------

  datatype Release = Release(id: string, answer: ScaleBridge.Answer)

  /** The list the Broker shows when so many chunks are held on the group; `listed` says
      whether the group is on it. */
  datatype View = View(list: nat -> seq<NodeGroup>, listed: bool)

  ghost predicate Shows(v: View, id: string) {
    forall n: nat {:trigger v.list(n)} :: TargetOf(v.list(n), id) == if v.listed then n else 0
  }

  /** A read call: if it goes to the Broker, the list is seen after `saw` and the read ends
      after another `took` milliseconds; what is given back before and after it is seen. */
  datatype Read = Read(saw: nat, took: nat, ok: bool, before: seq<Release>, after: seq<Release>, view: View)

  /** `Begin` starts a loop, `Look` is any read, `Ask` the read of the target size, `Scale`
      asks for what `demand` exceeds it by, `Land` is the arrival of a POST given up. */
  datatype Action =
    | Wait(ms: nat)
    | Free(release: Release)
    | Land(id: string)
    | Begin
    | Look(read: Read)
    | Ask(read: Read)
    | Scale(demand: int, agent: bool, list: Option<seq<NodeGroup>>, post: nat -> ScaleBridge.Answer)

  function PeakOf(actions: seq<Action>, peak: int): int {
    if actions == [] then peak
    else
      var before, last := PeakOf(actions[..|actions| - 1], peak), actions[|actions| - 1];
      if last.Scale? && last.demand > before then last.demand else before
  }

  /** The scale request may give up a POST that can still arrive. */
  ghost predicate MayBeLate(a: Action) {
    a.Scale? && exists i: nat :: a.post(i) == ScaleBridge.Late
  }

  ghost function LatePosts(actions: seq<Action>): nat {
    if actions == [] then 0
    else LatePosts(actions[..|actions| - 1]) + if MayBeLate(actions[|actions| - 1]) then 1 else 0
  }

  // ---------------------------------------------------------------------------
  // What a loop may rely on
  // ---------------------------------------------------------------------------

  /** A loop's first read, and the end of the last successful read before it. */
  datatype Gap = Gap(firstRead: int, lastFetch: Option<int>)

  predicate Wide(g: Gap) {
    g.lastFetch.Some? ==> g.firstRead - g.lastFetch.value >= TTL
  }

  /** Loops ten seconds apart are wide apart as long as the reads of each are over within
      eight; two seconds after a read is the least that counts. */
  lemma ScanIntervalIsWide(start: int, ended: int)
    ensures ended <= start + 8000 ==> Wide(Gap(start + 10000, Some(ended)))
    ensures Wide(Gap(start, Some(ended))) ==> start - ended >= 2000
  {
  }

  /** The values the argument is about. `own` says whether the cached list was read in the
      current loop, `scaled` whether the loop has asked for its chunks; `seen` is what was
      held when the cached list was seen, and `seenListed` whether it showed the group. Of
      the POSTs given up `out` may still arrive; `late` is the largest number of them there
      was when a list was read. */
  datatype Books = Books(held: nat, cached: Option<Cached>, clock: int, target: Option<int>,
                         scaled: bool, readYet: bool, own: bool, peak: int, start: nat,
                         gaps: seq<Gap>, listed: bool, seen: nat, seenListed: bool,
                         out: nat, late: nat)

  function Limit(b: Books): int {
    if b.peak > b.start then b.peak else b.start
  }

  function LastFetch(b: Books): Option<int> {
    if b.cached.Some? then Some(b.cached.value.endedAt) else None
  }

  /** Every loop's first read came at least TTL after the last successful read before it
      had ended, and every list that was read showed the group. */
  predicate InTime(b: Books) {
    b.listed && forall i :: 0 <= i < |b.gaps| ==> Wide(b.gaps[i])
  }

  /** All that is held or may still arrive. */
  function Due(b: Books): nat {
    b.held + b.out
  }

  /** But for what no list could show, nothing is over, and until the loop has asked,
      whatever it can be answered shows all that is due: its own reads do, and older ones
      are too old to be used. */
  predicate Safe(b: Books, id: string) {
    && Due(b) <= Limit(b) + b.late
    && (!b.scaled && b.target.Some? ==> Due(b) <= b.target.value + b.late)
    && (!b.scaled && b.own ==> b.cached.Some? && Due(b) <= TargetOf(b.cached.value.list, id) + b.late)
    && (!b.scaled && b.readYet && !b.own && b.cached.Some? ==> b.clock - b.cached.value.endedAt >= TTL)
    && (b.own || b.target.Some? ==> b.readYet)
  }

  ghost predicate BooksOk(b: Books, id: string) {
    && (b.cached.Some? ==> TargetOf(b.cached.value.list, id) == if b.seenListed then b.seen else 0)
    && (InTime(b) ==> Safe(b, id))
  }

  predicate ServedAt(b: Books, now: int) {
    Serves(CacheState(b.cached, []), now)
  }

  /** The books after a read that started at the clock's time and would see `seen` chunks
      held, on a list that shows them or not; `held` are held when it ends. */
  function AfterRead(b: Books, c: Call, shows: bool, seen: nat, held: nat): Books {
    var gaps := if b.readYet then b.gaps else b.gaps + [Gap(b.clock, LastFetch(b))];
    if ServedAt(b, c.now) then b.(held := held, readYet := true, gaps := gaps)
    else
      var b' := b.(held := held, readYet := true, gaps := gaps, clock := c.fetch.endsAt, listed := b.listed && shows);
      if !c.fetch.ok then b'
      else
        b'.(cached := Some(Cached(c.list, c.now, c.fetch.seesAt, c.fetch.endsAt)), own := true,
            seen := seen, seenListed := shows, late := AtLeast(b.late, b.out))
  }

  function AtLeast(a: nat, b: nat): nat {
    if a < b then b else a
  }

  /** What the read is answered. */
  function Told(b: Books, c: Call, id: string): Option<int> {
    if ServedAt(b, c.now) then Some(TargetOf(b.cached.value.list, id))
    else if c.fetch.ok then Some(TargetOf(c.list, id))
    else None
  }

  lemma StillInTime(b: Books, c: Call, shows: bool, seen: nat, held: nat)
    requires InTime(AfterRead(b, c, shows, seen, held))
    ensures InTime(b)
    ensures !b.readYet ==> Wide(Gap(b.clock, LastFetch(b)))
    ensures ServedAt(b, c.now) || shows
  {
    var gaps := AfterRead(b, c, shows, seen, held).gaps;
    if !b.readYet {
      assert gaps[..|b.gaps|] == b.gaps && gaps[|b.gaps|] == Gap(b.clock, LastFetch(b));
      assert forall i :: 0 <= i < |b.gaps| ==> b.gaps[i] == gaps[i];
    }
  }

  lemma ReadIsSafe(b: Books, id: string, c: Call, shows: bool, seen: nat, held: nat)
    requires BooksOk(b, id) && c.now == b.clock <= c.fetch.endsAt && held <= seen <= b.held
    requires TargetOf(c.list, id) == if shows then seen else 0
    ensures BooksOk(AfterRead(b, c, shows, seen, held), id)
    ensures var b' := AfterRead(b, c, shows, seen, held);
      InTime(b') && !b.scaled && Told(b, c, id).Some? ==> Due(b') <= Told(b, c, id).value + b'.late
  {
    if InTime(AfterRead(b, c, shows, seen, held)) {
      StillInTime(b, c, shows, seen, held);
    }
  }

  function Demanded(b: Books, demand: int): Books {
    b.(peak := if demand > b.peak then demand else b.peak)
  }

  /** `added` chunks were placed and `due` POSTs given up that may still arrive. */
  function AfterScale(b: Books, demand: int, added: nat, due: nat): Books {
    Demanded(b, demand).(held := b.held + added, out := b.out + due, scaled := true)
  }

  /** Asking for the difference to a target that shows all that is held stays within the
      demand. */
  lemma ScaleIsSafe(b: Books, id: string, demand: int, added: nat, due: nat)
    requires BooksOk(b, id) && !b.scaled && b.target.Some?
    requires added + due <= if demand > b.target.value then demand - b.target.value else 0
    ensures BooksOk(AfterScale(b, demand, added, due), id)
  {
  }

  lemma FewerIsSafe(b: Books, id: string, held: nat)
    requires BooksOk(b, id) && held <= b.held
    ensures BooksOk(b.(held := held), id)
  {
  }

  lemma LandIsSafe(b: Books, id: string, arrived: nat)
    requires BooksOk(b, id) && arrived <= b.out
    ensures BooksOk(b.(held := b.held + arrived, out := b.out - arrived), id)
  {
  }

  lemma BeginIsSafe(b: Books, id: string)
    requires BooksOk(b, id)
    ensures BooksOk(b.(target := None, scaled := false, readYet := false, own := false), id)
  {
  }

  lemma WaitIsSafe(b: Books, id: string, ms: nat)
    requires BooksOk(b, id)
    ensures BooksOk(b.(clock := b.clock + ms), id)
  {
  }

  lemma AskIsSafe(b: Books, id: string, r: Option<int>)
    requires BooksOk(b, id) && b.readYet && (InTime(b) && !b.scaled && r.Some? ==> Due(b) <= r.value + b.late)
    ensures BooksOk(b.(target := r), id)
  {
  }

  // ---------------------------------------------------------------------------
  // When things happen
  // ---------------------------------------------------------------------------

  /** The part of the books that depends only on when the actions happen, which reads
      succeed, and which lists show the group. */
  datatype Times = Times(clock: int, lastFetch: Option<int>, readYet: bool, gaps: seq<Gap>, listed: bool)

  function TimesOf(b: Books): Times {
    Times(b.clock, LastFetch(b), b.readYet, b.gaps, b.listed)
  }

  function ReadTimes(t: Times, read: Read): Times {
    var gaps := if t.readYet then t.gaps else t.gaps + [Gap(t.clock, t.lastFetch)];
    if t.lastFetch.Some? && t.clock - t.lastFetch.value < TTL then t.(readYet := true, gaps := gaps)
    else
      var end := t.clock + read.saw + read.took;
      Times(end, if read.ok then Some(end) else t.lastFetch, true, gaps, t.listed && read.view.listed)
  }

  function TimesNext(t: Times, a: Action): Times {
    match a
    case Wait(ms) => t.(clock := t.clock + ms)
    case Free(_) => t
    case Land(_) => t
    case Begin => t.(readYet := false)
    case Look(read) => ReadTimes(t, read)
    case Ask(read) => ReadTimes(t, read)
    case Scale(_, _, _, _) => t
  }

  function TimesAfter(t: Times, actions: seq<Action>): Times {
    if actions == [] then t else TimesNext(TimesAfter(t, actions[..|actions| - 1]), actions[|actions| - 1])
  }

  /** Every loop's first read starts at least TTL after the end of the last successful
      read before it, and every list read shows the group. */
  predicate WellTimed(t: Times) {
    t.listed && forall i :: 0 <= i < |t.gaps| ==> Wide(t.gaps[i])
  }

  lemma ReadKeepsTime(b: Books, c: Call, read: Read, seen: nat, held: nat)
    requires c.now == b.clock && c.fetch == Fetch(read.ok, b.clock + read.saw, b.clock + read.saw + read.took)
    ensures TimesOf(AfterRead(b, c, read.view.listed, seen, held)) == ReadTimes(TimesOf(b), read)
  {
  }

  // ---------------------------------------------------------------------------
  // What a run does to the books
  // ---------------------------------------------------------------------------

  /** What an action may do to them. */
  ghost predicate Stepped(b: Books, b': Books, a: Action) {
    && TimesOf(b') == TimesNext(TimesOf(b), a)
    && b'.start == b.start && b'.peak == (if a.Scale? && a.demand > b.peak then a.demand else b.peak)
    && b'.out <= b.out + (if MayBeLate(a) then 1 else 0)
    && (b'.late == b.late || b'.late == AtLeast(b.late, b.out))
  }

  lemma StepRead(b: Books, c: Call, read: Read, seen: nat, held: nat, r: Option<int>)
    requires c.now == b.clock && c.fetch == Fetch(read.ok, b.clock + read.saw, b.clock + read.saw + read.took)
    ensures var b' := AfterRead(b, c, read.view.listed, seen, held);
      && Stepped(b, b', Look(read)) && Stepped(b, b'.(target := r), Ask(read))
  {
    ReadKeepsTime(b, c, read, seen, held);
  }

  lemma StepScale(b: Books, b': Books, a: Action, added: nat, due: nat)
    requires a.Scale? && due <= if MayBeLate(a) then 1 else 0
    requires b' == Demanded(b, a.demand) || b' == AfterScale(b, a.demand, added, due)
    ensures Stepped(b, b', a)
  {
  }

  ghost predicate Followed(b: Books, b': Books, actions: seq<Action>) {
    && TimesOf(b') == TimesAfter(TimesOf(b), actions)
    && b'.start == b.start && b'.peak == PeakOf(actions, b.peak)
    && b'.out <= b.out + LatePosts(actions)
    && b'.late <= AtLeast(b.late, b.out + LatePosts(actions))
  }

  lemma OneMoreStep(b: Books, b': Books, b'': Books, actions: seq<Action>, i: nat)
    requires i < |actions| && Followed(b, b', actions[..i]) && Stepped(b', b'', actions[i])
    ensures Followed(b, b'', actions[..i + 1])
  {
    assert actions[..i + 1][..i] == actions[..i];
  }

  lemma FollowedIsSafe(b: Books, b': Books, actions: seq<Action>, id: string)
    requires Followed(b, b', actions) && BooksOk(b', id)
    ensures WellTimed(TimesAfter(TimesOf(b), actions)) ==>
      Due(b') <= PeakOf(actions, b.peak) + b'.late || Due(b') <= b.start + b'.late
  {
  }

  // ---------------------------------------------------------------------------
  // The autoscaler, the server and the ledger
  // ---------------------------------------------------------------------------

  lemma FreedIsFewer(live: map<string, ScaleBridge.Chunk>, id: string, provider: string)
    ensures |ScaleBridge.HeldWith(live - {id}, provider)| <= |ScaleBridge.HeldWith(live, provider)|
  {
    SubsetSize(ScaleBridge.HeldWith(live - {id}, provider), ScaleBridge.HeldWith(live, provider));
  }

  function Match(chunk: ScaleBridge.Chunk, provider: string): nat {
    if chunk.provider == provider then 1 else 0
  }

  lemma OneMoreHeld(live: map<string, ScaleBridge.Chunk>, id: string, chunk: ScaleBridge.Chunk, provider: string)
    requires id !in live
    ensures |ScaleBridge.HeldWith(live[id := chunk], provider)| ==
      |ScaleBridge.HeldWith(live, provider)| + Match(chunk, provider)
  {
    var before, after := ScaleBridge.HeldWith(live, provider), ScaleBridge.HeldWith(live[id := chunk], provider);
    if chunk.provider == provider {
      assert after == before + {id};
    } else {
      assert after == before;
    }
  }

  lemma OneFewerHeld(live: map<string, ScaleBridge.Chunk>, id: string, provider: string)
    requires id in live
    ensures |ScaleBridge.HeldWith(live - {id}, provider)| ==
      |ScaleBridge.HeldWith(live, provider)| - Match(live[id], provider)
  {
    var rest := live - {id};
    assert live == rest[id := live[id]];
    OneMoreHeld(rest, id, live[id], provider);
  }

  function Landed(live: map<string, ScaleBridge.Chunk>, pending: map<string, ScaleBridge.Chunk>,
                  id: string): map<string, ScaleBridge.Chunk>
  {
    if id in pending then live[id := pending[id]] else live
  }

  /** An arrival moves a chunk from those that may arrive to those that are held. */
  lemma Landing(live: map<string, ScaleBridge.Chunk>, pending: map<string, ScaleBridge.Chunk>, id: string,
                provider: string)
    requires live.Keys !! pending.Keys
    ensures var n := if id in pending then Match(pending[id], provider) else 0;
      && |ScaleBridge.HeldWith(Landed(live, pending, id), provider)| == |ScaleBridge.HeldWith(live, provider)| + n
      && |ScaleBridge.HeldWith(pending - {id}, provider)| == |ScaleBridge.HeldWith(pending, provider)| - n
  {
    if id in pending {
      OneMoreHeld(live, id, pending[id], provider);
      OneFewerHeld(pending, id, provider);
    } else {
      assert pending - {id} == pending;
    }
  }

  function TargetIfAny(list: Option<seq<NodeGroup>>, id: string): Option<int> {
    if list.Some? then Some(TargetOf(list.value, id)) else None
  }

  /** Which round trips there were plays no part in an answer. */
  lemma SameAnswer(s: CacheState, b: Books, c: Call, id: string, shows: bool, seen: nat, held: nat)
    requires b.cached == s.cached
    ensures TargetIfAny(Answer(s, c), id) == Told(b, c, id)
    ensures Next(s, c).cached == AfterRead(b, c, shows, seen, held).cached
    ensures b.clock == c.now ==> AnsweredAt(s, c) == AfterRead(b, c, shows, seen, held).clock
    ensures TripsOver(s.trips, c.now) ==> TripsOver(Next(s, c).trips, AnsweredAt(s, c))
  {
  }

  /** All that entering a read needs: the new books agree with the cache and the clock. */
  lemma ReadEntry(s: CacheState, b: Books, c: Call, id: string, shows: bool, seen: nat, held: nat) returns (b': Books)
    requires b.cached == s.cached && b.clock == c.now <= c.fetch.endsAt && TripsOver(s.trips, c.now)
    requires BooksOk(b, id) && held <= seen <= b.held && TargetOf(c.list, id) == if shows then seen else 0
    ensures b' == AfterRead(b, c, shows, seen, held) && BooksOk(b', id)
    ensures b'.held == held && b'.out == b.out && b'.target == b.target && b'.scaled == b.scaled
    ensures b'.cached == Next(s, c).cached && b'.clock == AnsweredAt(s, c)
    ensures TripsOver(Next(s, c).trips, AnsweredAt(s, c))
    ensures TargetIfAny(Answer(s, c), id) == Told(b, c, id)
    ensures InTime(b') && !b.scaled && Told(b, c, id).Some? ==> Due(b') <= Told(b, c, id).value + b'.late
  {
    SameAnswer(s, b, c, id, shows, seen, held);
    ReadIsSafe(b, id, c, shows, seen, held);
    b' := AfterRead(b, c, shows, seen, held);
  }

  ghost predicate IdsOk(mint: nat -> string, used: set<string>, next: nat) {
    ScaleBridge.FreshFrom(mint, used, next) && forall a: nat, b: nat :: ScaleBridge.Apart(mint, a, b)
  }

  ghost predicate TripsOver(trips: seq<Trip>, clock: int) {
    trips != [] ==> trips[|trips| - 1].endedAt <= clock
  }

  class Loops {
    const server: Server
    const ledger: ScaleBridge.Ledger
    const id: string
    const provider: string
    const mint: nat -> string
    var clock: int
    var next: nat
    var target: Option<int>
    var scaled: bool
    ghost var books: Books

    constructor (server: Server, ledger: ScaleBridge.Ledger, id: string, provider: string, mint: nat -> string)
      requires server.Valid() && server.state == EMPTY && server.agent && id != ""
      requires ledger.Valid() && ScaleBridge.FreshIds(mint, ledger.used)
      ensures Valid() && this.server == server && this.ledger == ledger && this.id == id && this.provider == provider
      ensures this.mint == mint
      ensures books == Books(Held(), None, 0, None, true, false, false, 0, Held() + Out(), [], true, 0, true, Out(), 0)
    {
      this.server, this.ledger, this.id, this.provider, this.mint := server, ledger, id, provider, mint;
      clock, next, target, scaled := 0, 0, None, true;
      var held := |ScaleBridge.HeldWith(ledger.live, provider)|;
      var out := |ScaleBridge.HeldWith(ledger.pending, provider)|;
      books := Books(held, None, 0, None, true, false, false, 0, held + out, [], true, 0, true, out, 0);
    }

    /** The chunks reserved with the group's provider. */
    function Held(): nat
      reads ledger
    {
      |ScaleBridge.HeldWith(ledger.live, provider)|
    }

    /** The POSTs with it that were given up and may still arrive. */
    function Out(): nat
      reads ledger
    {
      |ScaleBridge.HeldWith(ledger.pending, provider)|
    }

    /** The books are those of the objects. */
    ghost predicate Tied()
      reads this, server, ledger
    {
      && books.held == Held() && books.out == Out() && books.cached == server.state.cached
      && books.clock == clock && books.target == target && books.scaled == scaled
    }

    ghost predicate Valid()
      reads this, server, ledger
    {
      && server.Valid() && ledger.Valid() && id != "" && server.agent && IdsOk(mint, ledger.used, next)
      && TripsOver(server.state.trips, clock)
      && Tied() && BooksOk(books, id)
    }

    method GiveBack(r: Release)
      requires Valid()
      modifies ledger, this`books
      ensures Valid() && Held() <= old(Held()) && books == old(books).(held := Held())
      ensures ledger.pending == old(ledger.pending)
    {
      DeleteChunk(r);
      FewerIsSafe(books, id, Held());
      books := books.(held := Held());
    }

    method DeleteChunk(r: Release)
      requires ledger.Valid()
      modifies ledger
      ensures ledger.Valid() && ledger.used == old(ledger.used) && ledger.pending == old(ledger.pending)
      ensures Held() <= old(Held())
    {
      FreedIsFewer(ledger.live, r.id, provider);
      var ok := ledger.Delete(r.id, r.answer);
    }

    method Arrive(pid: string)
      requires Valid()
      modifies ledger, this`books
      ensures Valid() && Held() + Out() == old(Held() + Out()) && Out() <= old(Out())
      ensures books == old(books).(held := Held(), out := Out())
      ensures old(pid in ScaleBridge.HeldWith(ledger.pending, provider)) ==> Held() == old(Held()) + 1
    {
      LandChunk(pid);
      LandIsSafe(books, id, Held() - books.held);
      books := books.(held := Held(), out := Out());
    }

    method LandChunk(pid: string)
      requires ledger.Valid()
      modifies ledger
      ensures ledger.Valid() && ledger.used == old(ledger.used)
      ensures Held() + Out() == old(Held() + Out()) && Out() <= old(Out())
      ensures old(pid in ScaleBridge.HeldWith(ledger.pending, provider)) ==> Held() == old(Held()) + 1
    {
      Landing(ledger.live, ledger.pending, pid, provider);
      ledger.Land(pid);
    }

    method GiveAllBack(rs: seq<Release>)
      requires Valid()
      modifies ledger, this`books
      ensures Valid() && Held() <= old(Held()) && books == old(books).(held := Held())
      ensures (rs == [] ==> ledger.live == old(ledger.live)) && ledger.pending == old(ledger.pending)
    {
      for i := 0 to |rs|
        invariant Valid() && Held() <= old(Held()) && books == old(books).(held := Held())
        invariant (i == 0 ==> ledger.live == old(ledger.live)) && ledger.pending == old(ledger.pending)
      {
        GiveBack(rs[i]);
      }
    }

    ghost function CallFor(read: Read, now: int, seen: nat): Call {
      Call(now, Fetch(read.ok, now + read.saw, now + read.saw + read.took), read.view.list(seen))
    }

    /** A read of the target size, by whichever call; `seen` chunks were held when the list
        was seen, had it been read. */
    method ReadTarget(read: Read) returns (r: Option<int>, ghost seen: nat)
      requires Valid() && Shows(read.view, id)
      modifies this`clock, this`books, server, ledger
      ensures Valid() && Held() <= seen <= old(Held())
      ensures read.before == [] ==> seen == old(Held())
      ensures read.before == [] && read.after == [] ==> ledger.live == old(ledger.live)
      ensures r == Told(old(books), CallFor(read, old(clock), seen), id)
      ensures books == AfterRead(old(books), CallFor(read, old(clock), seen), read.view.listed, seen, Held())
      ensures InTime(books) && !scaled && r.Some? ==> Due(books) <= r.value + books.late
    {
      ghost var b := books;
      var list;
      list, seen := SeeList(read);
      r := CallAndEnter(read, list, b, seen);
    }

    /** The call, entered into the books `b` as they were before anything was given back. */
    method CallAndEnter(read: Read, list: seq<NodeGroup>, ghost b: Books, ghost seen: nat) returns (r: Option<int>)
      requires Valid() && BooksOk(b, id) && books == b.(held := Held()) && Held() <= seen <= b.held
      requires list == read.view.list(seen) && TargetOf(list, id) == if read.view.listed then seen else 0
      modifies this`clock, this`books, server
      ensures Valid() && r == Told(b, CallFor(read, old(clock), seen), id)
      ensures books == AfterRead(b, CallFor(read, old(clock), seen), read.view.listed, seen, Held())
      ensures InTime(books) && !scaled && r.Some? ==> Due(books) <= r.value + books.late
    {
      ghost var c, state := CallFor(read, clock, seen), server.state;
      r := CallServer(read, list);
      EnterRead(b, c, read.view.listed, seen, state);
    }

    /** Chunks are given back before and after the moment the list is seen. */
    method SeeList(read: Read) returns (list: seq<NodeGroup>, ghost seen: nat)
      requires Valid() && Shows(read.view, id)
      modifies this`books, ledger
      ensures Valid() && Held() <= seen <= old(Held()) && books == old(books).(held := Held())
      ensures list == read.view.list(seen) && TargetOf(list, id) == if read.view.listed then seen else 0
      ensures ledger.pending == old(ledger.pending)
      ensures read.before == [] ==> seen == old(Held())
      ensures read.before == [] && read.after == [] ==> ledger.live == old(ledger.live)
    {
      GiveAllBack(read.before);
      seen := Held();
      list := read.view.list(Held());
      GiveAllBack(read.after);
    }

    /** The call itself: what it is answered, and what becomes of the cache and the clock. */
    method CallServer(read: Read, list: seq<NodeGroup>) returns (r: Option<int>)
      requires server.Valid() && TripsOver(server.state.trips, clock) && id != "" && server.agent
      modifies this`clock, server
      ensures server.Valid()
      ensures var c := Call(old(clock), Fetch(read.ok, old(clock) + read.saw, old(clock) + read.saw + read.took), list);
        && server.state == Next(old(server.state), c)
        && r == TargetIfAny(Answer(old(server.state), c), id)
        && clock == AnsweredAt(old(server.state), c)
    {
      var now, end := clock, clock + read.saw + read.took;
      var served := server.cache.Some? && now - server.cacheAt < TTL;
      r := server.NodeGroupTargetSize(now, Fetch(read.ok, now + read.saw, end), list, id);
      if !served {
        clock := end;
      }
    }

    /** Enters the read into the books. */
    ghost method EnterRead(b: Books, c: Call, shows: bool, seen: nat, state: CacheState)
      requires server.Valid() && ledger.Valid() && id != "" && server.agent && IdsOk(mint, ledger.used, next)
      requires server.state == Next(state, c) && clock == AnsweredAt(state, c) && TripsOver(state.trips, c.now)
      requires b.cached == state.cached && b.clock == c.now <= c.fetch.endsAt
      requires b.target == target && b.scaled == scaled && b.out == Out()
      requires BooksOk(b, id) && Held() <= seen <= b.held && TargetOf(c.list, id) == if shows then seen else 0
      modifies this`books
      ensures Valid() && books == AfterRead(b, c, shows, seen, Held())
      ensures TargetIfAny(Answer(state, c), id) == Told(b, c, id)
      ensures InTime(books) && !scaled && Told(b, c, id).Some? ==> Due(books) <= Told(b, c, id).value + books.late
    {
      books := ReadEntry(state, b, c, id, shows, seen, Held());
    }

    method WaitFor(ms: nat)
      requires Valid()
      modifies this`clock, this`books
      ensures Valid() && books == old(books).(clock := old(clock) + ms)
    {
      WaitIsSafe(books, id, ms);
      clock := clock + ms;
      books := books.(clock := clock);
    }

    method BeginLoop()
      requires Valid()
      modifies this`target, this`scaled, this`books
      ensures Valid() && books == old(books).(target := None, scaled := false, readYet := false, own := false)
    {
      BeginIsSafe(books, id);
      target, scaled := None, false;
      books := books.(target := None, scaled := false, readYet := false, own := false);
    }

    method AskTarget(read: Read) returns (ghost seen: nat)
      requires Valid() && Shows(read.view, id)
      modifies this`clock, this`books, this`target, server, ledger
      ensures Valid() && Held() <= seen <= old(Held())
      ensures read.before == [] ==> seen == old(Held())
      ensures read.before == [] && read.after == [] ==> ledger.live == old(ledger.live)
      ensures var c := CallFor(read, old(clock), seen);
        books == AfterRead(old(books), c, read.view.listed, seen, Held()).(target := Told(old(books), c, id))
    {
      var r;
      r, seen := ReadTarget(read);
      AskIsSafe(books, id, r);
      target := r;
      books := books.(target := r);
    }

    /** How much a loop with this demand asks for. */
    function Wish(demand: int): nat
      reads this
    {
      if !scaled && target.Some? && demand > target.value then demand - target.value else 0
    }

    /** Asks for what the demand exceeds the target by, once per loop. */
    method ScaleUp(demand: int, agent: bool, list: Option<seq<NodeGroup>>, post: nat -> ScaleBridge.Answer)
      returns (ghost added: nat, ghost due: nat)
      requires Valid()
      modifies this`next, this`scaled, this`books, ledger
      ensures Valid()
      ensures books == if old(scaled) || old(target).None? then Demanded(old(books), demand)
                       else AfterScale(old(books), demand, added, due)
      ensures added + due <= old(Wish(demand)) && (due > 0 ==> due == 1 && SomeLate(post))
      ensures old(Wish(demand)) > 0 && Answered(agent, list) ==> PlacedBy(post, old(Wish(demand)), added, due)
    {
      added, due := 0, 0;
      if scaled || target.None? {
        PeakIsSafe(books, id, demand);
        books := Demanded(books, demand);
        return;
      }
      if demand > target.value {
        added, due := Increase(demand - target.value, agent, list, post);
      }
      EnterScale(demand, added, due);
      scaled := true;
    }

    ghost method EnterScale(demand: int, added: nat, due: nat)
      requires server.Valid() && ledger.Valid() && id != "" && server.agent && IdsOk(mint, ledger.used, next)
      requires TripsOver(server.state.trips, clock) && BooksOk(books, id) && !scaled && target.Some?
      requires books.cached == server.state.cached && books.clock == clock && books.target == target && !books.scaled
      requires Held() == books.held + added && Out() == books.out + due
      requires added + due <= if demand > target.value then demand - target.value else 0
      modifies this`books
      ensures books == AfterScale(old(books), demand, added, due) && BooksOk(books, id)
    {
      ScaleIsSafe(books, id, demand, added, due);
      books := AfterScale(books, demand, added, due);
    }

    method LookAt(read: Read)
      requires Valid() && Shows(read.view, id)
      modifies this`clock, this`books, server, ledger
      ensures Valid() && Stepped(old(books), books, Look(read))
    {
      ghost var b, now := books, clock;
      ghost var seen;
      var r;
      r, seen := ReadTarget(read);
      StepRead(b, CallFor(read, now, seen), read, seen, Held(), r);
    }

    method AskIt(read: Read)
      requires Valid() && Shows(read.view, id)
      modifies this`clock, this`books, this`target, server, ledger
      ensures Valid() && Stepped(old(books), books, Ask(read))
    {
      ghost var b, now := books, clock;
      ghost var seen := AskTarget(read);
      StepRead(b, CallFor(read, now, seen), read, seen, Held(), Told(b, CallFor(read, now, seen), id));
    }

    ghost predicate ActionOk(a: Action) {
      match a
      case Look(read) => Shows(read.view, id)
      case Ask(read) => Shows(read.view, id)
      case _ => true
    }

    method Do(a: Action)
      requires Valid() && ActionOk(a)
      modifies this`clock, this`next, this`target, this`scaled, this`books, server, ledger
      ensures Valid() && Stepped(old(books), books, a)
    {
      match a
      case Wait(ms) =>
        WaitFor(ms);
      case Free(release) =>
        GiveBack(release);
      case Land(pid) =>
        Arrive(pid);
      case Begin =>
        BeginLoop();
      case Look(read) =>
        LookAt(read);
      case Ask(read) =>
        AskIt(read);
      case Scale(demand, agent, list, post) =>
        ghost var b := books;
        ghost var added, due := ScaleUp(demand, agent, list, post);
        StepScale(b, books, a, added, due);
    }

    /** For every sequence of actions: if every loop's first read starts at least TTL after
        the end of the last successful read before it, and every list read shows the group,
        then what is reserved, and all that may still arrive, exceeds the largest demand
        seen, or what was there to begin with, by no more than the number of POSTs given up
        that were still to arrive when a list was read. Without such POSTs it never does.
        It holds at every point, since every prefix is such a sequence too. */
    method Run(actions: seq<Action>)
      requires Valid() && forall i :: 0 <= i < |actions| ==> ActionOk(actions[i])
      modifies this`clock, this`next, this`target, this`scaled, this`books, server, ledger
      ensures Valid() && TimesOf(books) == TimesAfter(TimesOf(old(books)), actions)
      ensures books.start == old(books).start && books.peak == PeakOf(actions, old(books).peak)
      ensures WellTimed(TimesAfter(TimesOf(old(books)), actions)) ==>
        || Held() + Out() <= PeakOf(actions, old(books).peak) + books.late
        || Held() + Out() <= old(books).start + books.late
      ensures Out() <= old(Out()) + LatePosts(actions)
      ensures books.late <= AtLeast(old(books).late, old(Out()) + LatePosts(actions))
    {
      for i := 0 to |actions|
        invariant Valid() && Followed(old(books), books, actions[..i])
      {
        ghost var b := books;
        Do(actions[i]);
        OneMoreStep(old(books), b, books, actions, i);
      }
      assert actions[..|actions|] == actions;
      FollowedIsSafe(old(books), books, actions, id);
    }

    /** The agent answers, and the group is on its list with its provider. */
    ghost predicate Answered(agent: bool, list: Option<seq<NodeGroup>>) {
      agent && list.Some? && GroupOn(list.value, id, provider)
    }

    method Increase(delta: int, agent: bool, list: Option<seq<NodeGroup>>, post: nat -> ScaleBridge.Answer)
      returns (ghost added: nat, ghost due: nat)
      requires ledger.Valid() && IdsOk(mint, ledger.used, next) && delta > 0 && id != ""
      modifies this`next, ledger
      ensures ledger.Valid() && IdsOk(mint, ledger.used, next)
      ensures Held() == old(Held()) + added && Out() == old(Out()) + due
      ensures added + due <= delta && due <= if SomeLate(post) then 1 else 0
      ensures Answered(agent, list) ==> PlacedBy(post, delta, added, due)
    {
      var from := next;
      var ids := (i: nat) => mint(from + i);
      ScaleBridge.ShiftIsFresh(mint, from, ids, ledger.used);
      ghost var live, pending, used := ledger.live, ledger.pending, ledger.used;
      ghost var k, group;
      var r;
      r, k, group := ScaleBridge.NodeGroupIncreaseSize(ledger, agent, list, id, delta, ids, post);
      next := from + delta;
      ScaleBridge.ShiftBack(mint, from, ids, ledger.used, delta);
      added, due := 0, 0;
      if group.Some? {
        var chunk := ScaleBridge.ChunkOf(group.value);
        ScaleBridge.FreshForFewer(ids, used, live.Keys);
        ScaleBridge.PlacingAddsExactly(live, ids, chunk, ScaleBridge.Placed(post, delta, k), provider);
        LateAddsOne(pending, ids, chunk, post, delta, k, provider, used);
        if provider == chunk.provider {
          added := ScaleBridge.Placed(post, delta, k);
          due := if k < delta && post(k) == ScaleBridge.Late then 1 else 0;
        }
      }
    }
  }

  ghost predicate SomeLate(post: nat -> ScaleBridge.Answer) {
    exists i: nat :: post(i) == ScaleBridge.Late
  }

  /** What a fan-out leaves: the chunks it placed, and a POST that may still arrive. */
  ghost predicate PlacedBy(post: nat -> ScaleBridge.Answer, delta: nat, added: nat, due: nat) {
    exists k: nat ::
      && ScaleBridge.StopsAt(post, delta, k) && added == ScaleBridge.Placed(post, delta, k)
      && due == if k < delta && post(k) == ScaleBridge.Late then 1 else 0
  }

  lemma LateAddsOne(pending: map<string, ScaleBridge.Chunk>, ids: nat -> string, chunk: ScaleBridge.Chunk,
                    post: nat -> ScaleBridge.Answer, delta: nat, k: nat, provider: string, used: set<string>)
    requires ScaleBridge.FreshIds(ids, used) && pending.Keys <= used
    ensures var now := ScaleBridge.AfterLate(pending, ids, chunk, post, delta, k);
      |ScaleBridge.HeldWith(now, provider)| == |ScaleBridge.HeldWith(pending, provider)| +
        if k < delta && post(k) == ScaleBridge.Late && provider == chunk.provider then 1 else 0
  {
    assert ScaleBridge.Unused(ids, used, k);
    OneMoreHeld(pending, ids(k), chunk, provider);
  }

  // ---------------------------------------------------------------------------
  // What one loop does, exactly
  // ---------------------------------------------------------------------------

  /** The target size a loop reads that begins now, its read succeeding if one is made:
      from the cache while that is fresh, otherwise from the list shown now. */
  function LoopTarget(b: Books, view: View): int {
    if ServedAt(b, b.clock) then if b.seenListed then b.seen else 0
    else if view.listed then b.held else 0
  }

  /** What is held after it, when everything it asks for is placed. */
  function LoopEnds(b: Books, view: View, demand: int): int {
    b.held + if demand > LoopTarget(b, view) then demand - LoopTarget(b, view) else 0
  }

  const ALL_DONE: nat -> ScaleBridge.Answer := _ => ScaleBridge.Done

  lemma {:induction false} AllDone(n: nat)
    ensures ScaleBridge.AllWentThrough(ALL_DONE, n)
  {
    if n > 0 {
      AllDone(n - 1);
    }
  }

  predicate GroupOn(list: seq<NodeGroup>, id: string, provider: string) {
    (exists ng :: ng in list && ng.id == id) && forall ng :: ng in list && ng.id == id ==> ng.provider == provider
  }

  /** The books after a loop has begun and read once, at the clock's time. */
  predicate HasRead(b: Books, b': Books, took: nat, view: View) {
    var served := ServedAt(b, b.clock);
    && b'.held == b.held && b'.clock == (if served then b.clock else b.clock + took)
    && LastFetch(b') == (if served then LastFetch(b) else Some(b'.clock))
    && b'.seen == (if served then b.seen else b.held)
    && b'.seenListed == (if served then b.seenListed else view.listed)
    && b'.gaps == b.gaps + [Gap(b.clock, LastFetch(b))] && b'.peak == b.peak && b'.start == b.start && !b'.scaled
    && b'.listed == (b.listed && (served || view.listed))
    && b'.out == b.out && b'.late == if served then b.late else AtLeast(b.late, b.out)
  }

  /** The books after a whole loop in which nothing fails. */
  predicate Looped(b: Books, b': Books, took: nat, view: View, demand: int) {
    var served := ServedAt(b, b.clock);
    && b'.held == LoopEnds(b, view, demand) && b'.clock == (if served then b.clock else b.clock + took)
    && LastFetch(b') == (if served then LastFetch(b) else Some(b'.clock))
    && b'.seen == (if served then b.seen else b.held)
    && b'.seenListed == (if served then b.seenListed else view.listed)
    && b'.gaps == b.gaps + [Gap(b.clock, LastFetch(b))] && b'.start == b.start
    && b'.peak == (if demand > b.peak then demand else b.peak)
    && b'.listed == (b.listed && (served || view.listed))
    && b'.out == b.out && b'.late == if served then b.late else AtLeast(b.late, b.out)
  }

  method BeginAndAsk(a: Loops, took: nat, view: View)
    requires a.Valid() && Shows(view, a.id)
    modifies a, a.server, a.ledger
    ensures a.Valid() && HasRead(old(a.books), a.books, took, view)
    ensures a.target == Some(LoopTarget(old(a.books), view))
  {
    ghost var b := a.books;
    a.BeginLoop();
    ghost var seen := a.AskTarget(Read(0, took, true, [], [], view));
    LoopRead(b, view, a.CallFor(Read(0, took, true, [], [], view), b.clock, seen), a.id, took);
  }

  /** One loop on its own: it reads once and asks once, and nothing fails. */
  method OneLoop(a: Loops, took: nat, view: View, demand: int, list: seq<NodeGroup>)
    requires a.Valid() && Shows(view, a.id) && GroupOn(list, a.id, a.provider)
    modifies a, a.server, a.ledger
    ensures a.Valid() && a.Held() == LoopEnds(old(a.books), view, demand)
    ensures Looped(old(a.books), a.books, took, view, demand)
  {
    ghost var b := a.books;
    BeginAndAsk(a, took, view);
    ghost var b', wish := a.books, a.Wish(demand);
    ScaleTo(a, demand, list);
    ReadThenScaled(b, b', took, view, demand, wish);
  }

  lemma ReadThenScaled(b: Books, b': Books, took: nat, view: View, demand: int, wish: nat)
    requires HasRead(b, b', took, view)
    requires wish == if demand > LoopTarget(b, view) then demand - LoopTarget(b, view) else 0
    ensures Looped(b, AfterScale(b', demand, wish, 0), took, view, demand)
  {
  }

  /** The request of a loop that knows its target; every POST goes through. */
  method ScaleTo(a: Loops, demand: int, list: seq<NodeGroup>)
    requires a.Valid() && !a.scaled && a.target.Some? && GroupOn(list, a.id, a.provider)
    modifies a`next, a`scaled, a`books, a.ledger
    ensures a.Valid()
    ensures a.books == AfterScale(old(a.books), demand, old(a.Wish(demand)), 0)
  {
    ghost var wish := a.Wish(demand);
    ghost var added, due := a.ScaleUp(demand, true, Some(list), ALL_DONE);
    if wish > 0 {
      AllArePlaced(wish, added, due);
    }
  }

  lemma AllArePlaced(delta: nat, added: nat, due: nat)
    requires PlacedBy(ALL_DONE, delta, added, due)
    ensures added == delta && due == 0
  {
    var k: nat :| ScaleBridge.StopsAt(ALL_DONE, delta, k) && added == ScaleBridge.Placed(ALL_DONE, delta, k) &&
      due == if k < delta && ALL_DONE(k) == ScaleBridge.Late then 1 else 0;
    AllDone(delta);
    AllTheWay(ALL_DONE, delta, k);
  }

  /** The books of a loop that has begun and read. */
  lemma LoopRead(b: Books, view: View, c: Call, id: string, took: nat)
    requires BooksOk(b, id) && Shows(view, id)
    requires c == Call(b.clock, Fetch(true, b.clock, b.clock + took), view.list(b.held))
    ensures var begun := b.(target := None, scaled := false, readYet := false, own := false);
      && Told(begun, c, id) == Some(LoopTarget(b, view))
      && HasRead(b, AfterRead(begun, c, view.listed, b.held, b.held), took, view)
  {
  }

  /** A loop can end above both what was held and what is demanded exactly when chunks are
      held and it is answered from the cache, by a list that did not show the group or that
      was seen when less was held, or from a fresh list that does not show the group. */
  lemma OvershootsExactlyWhen(b: Books, view: View)
    ensures (exists demand :: Overshoots(b, view, demand)) <==>
      b.held > 0 && if ServedAt(b, b.clock) then !b.seenListed || b.held > b.seen else !view.listed
  {
    if b.held > LoopTarget(b, view) {
      assert Overshoots(b, view, LoopTarget(b, view) + 1);
    }
  }

  predicate Overshoots(b: Books, view: View, demand: int) {
    LoopEnds(b, view, demand) > demand && LoopEnds(b, view, demand) > b.held
  }

  /** Nothing is held and nothing has happened yet. */
  predicate Unstarted(b: Books) {
    && b.held == 0 && b.out == 0 && b.late == 0 && b.cached.None? && b.clock == 0
    && b.peak == 0 && b.start == 0 && b.gaps == [] && b.listed
  }

  /** Two loops with the same demand, the second beginning `gap` after the first's read has
      ended: the demand is placed twice exactly when the gap is shorter than the TTL or the
      second list does not show the group. The reads start `took + gap` apart, so whenever a
      read takes time, starting them the TTL apart is not enough. */
  method TwoLoops(a: Loops, demand: nat, took: nat, gap: nat, view: View, view': View, list: seq<NodeGroup>)
    requires a.Valid() && Unstarted(a.books)
    requires Shows(view, a.id) && view.listed && Shows(view', a.id) && GroupOn(list, a.id, a.provider) && demand > 0
    modifies a, a.server, a.ledger
    ensures a.Valid() && a.Held() == (if gap < TTL || !view'.listed then 2 * demand else demand)
    ensures a.books.peak == demand && a.books.gaps == [Gap(0, None), Gap(took + gap, Some(took))]
  {
    ghost var start := a.books;
    OneLoop(a, took, view, demand, list);
    ghost var b := a.books;
    a.WaitFor(gap);
    ghost var b' := a.books;
    OneLoop(a, took, view', demand, list);
    LoopedTwice(start, b, b', a.books, demand, took, gap, view, view');
  }

  lemma LoopedTwice(start: Books, b: Books, b': Books, b'': Books, demand: nat, took: nat, gap: nat,
                    view: View, view': View)
    requires Unstarted(start) && Looped(start, b, took, view, demand) && view.listed && demand > 0
    requires b' == b.(clock := b.clock + gap) && Looped(b', b'', took, view', demand)
    ensures b''.held == (if gap < TTL || !view'.listed then 2 * demand else demand)
    ensures b''.peak == demand && b''.gaps == [Gap(0, None), Gap(took + gap, Some(took))]
  {
    assert b.held == demand && b.seen == 0 && LastFetch(b) == Some(took);
    assert ServedAt(b', b'.clock) <==> gap < TTL;
    assert b.gaps == [Gap(0, None)];
  }

  const LATE_FIRST: nat -> ScaleBridge.Answer := i => if i == 0 then ScaleBridge.Late else ScaleBridge.Done

  lemma NoneIsPlaced(delta: nat, added: nat, due: nat)
    requires PlacedBy(LATE_FIRST, delta, added, due) && delta > 0
    ensures added == 0 && due == 1
  {
    var k: nat :| ScaleBridge.StopsAt(LATE_FIRST, delta, k) && added == ScaleBridge.Placed(LATE_FIRST, delta, k) &&
      due == if k < delta && LATE_FIRST(k) == ScaleBridge.Late then 1 else 0;
    if k > 0 {
      WentThroughAt(LATE_FIRST, k, 0);
    }
  }

  /** The bound is reached: the first loop gives up its only POST, the second, the lifetime
      later, sees nothing and places the demand, and then the POST arrives. */
  method LateArrival(a: Loops, demand: nat, took: nat, view: View, list: seq<NodeGroup>)
    requires a.Valid() && Unstarted(a.books) && demand > 0
    requires Shows(view, a.id) && view.listed && GroupOn(list, a.id, a.provider)
    modifies a, a.server, a.ledger
    ensures a.Valid() && WellTimed(TimesOf(a.books))
    ensures a.books.peak == demand && a.books.start == 0 && a.books.late == 1
    ensures a.Held() == demand + 1 && a.Out() == 0
  {
    GiveUpFirst(a, demand, took, view, list);
    a.WaitFor(TTL);
    ghost var b := a.books;
    OneLoop(a, took, view, demand, list);
    SecondLoopIsBlind(b, a.books, demand, took, view);
    var pid :| pid in ScaleBridge.HeldWith(a.ledger.pending, a.provider);
    a.Arrive(pid);
  }

  /** Where a first loop stands that gave up its only POST. */
  predicate GaveUp(b: Books, demand: nat, took: nat) {
    && b.held == 0 && b.out == 1 && b.late == 0 && b.peak == demand && b.start == 0 && b.listed
    && b.clock == took && LastFetch(b) == Some(took) && b.gaps == [Gap(0, None)]
  }

  method GiveUpFirst(a: Loops, demand: nat, took: nat, view: View, list: seq<NodeGroup>)
    requires a.Valid() && Unstarted(a.books) && demand > 0
    requires Shows(view, a.id) && view.listed && GroupOn(list, a.id, a.provider)
    modifies a, a.server, a.ledger
    ensures a.Valid() && GaveUp(a.books, demand, took)
  {
    ghost var start := a.books;
    BeginAndAsk(a, took, view);
    ghost var b := a.books;
    ghost var added, due := a.ScaleUp(demand, true, Some(list), LATE_FIRST);
    NoneIsPlaced(demand, added, due);
    FirstGivesUp(start, b, demand, took, view);
  }

  lemma FirstGivesUp(start: Books, b: Books, demand: nat, took: nat, view: View)
    requires Unstarted(start) && HasRead(start, b, took, view) && view.listed && demand > 0
    ensures GaveUp(AfterScale(b, demand, 0, 1), demand, took)
  {
    assert b.gaps == [Gap(0, None)];
  }

  lemma SecondLoopIsBlind(b: Books, b': Books, demand: nat, took: nat, view: View)
    requires GaveUp(b.(clock := took), demand, took) && b.clock == took + TTL && view.listed && demand > 0
    requires Looped(b, b', took, view, demand)
    ensures b'.held == demand && b'.out == 1 && b'.late == 1 && b'.peak == demand && b'.start == 0
    ensures WellTimed(TimesOf(b'))
  {
    assert !ServedAt(b, b.clock);
    assert b'.gaps == [Gap(0, None), Gap(took + TTL, Some(took))];
  }

  lemma {:induction false} AllTheWay(post: nat -> ScaleBridge.Answer, delta: nat, k: nat)
    requires ScaleBridge.AllWentThrough(post, delta) && ScaleBridge.StopsAt(post, delta, k)
    ensures k == delta
    decreases delta
  {
    if k < delta {
      WentThroughAt(post, delta, k);
    }
  }

  lemma {:induction false} WentThroughAt(post: nat -> ScaleBridge.Answer, n: nat, k: nat)
    requires ScaleBridge.AllWentThrough(post, n) && k < n
    ensures post(k) == ScaleBridge.Done
  {
    if k < n - 1 {
      WentThroughAt(post, n - 1, k);
    }
  }

  lemma PeakIsSafe(b: Books, id: string, demand: int)
    requires BooksOk(b, id)
    ensures BooksOk(Demanded(b, demand), id)
  {
  }
}
