/** Saving without losing what others saved: a conditional write under the lock, and clients that fetch, edit and retry. */
module ConfigSave {
  import opened Common

  // The bytes of config.yaml. Its revision, the SHA-256 of them, is represented by the bytes themselves.
  type Bytes = nat

  // Fetched bytes edited, normalized and rendered; or the edit gives up; or its result is not valid, which only the server
  // finds out.
  datatype Edited = GivesUp | NotValid | Content(bytes: Bytes)

  type Edit = Bytes -> Edited

  // ---- If-Match ----

  // One entry of an If-Match header, spaces and quotes off.
  datatype Tag = Star | Named(weak: bool, revision: Option<Bytes>)

  // What a save may overwrite: anything, or the revisions named.
  datatype Condition = Always | OneOf(revisions: seq<Bytes>)

  predicate HasStar(values: seq<seq<Tag>>)
  {
    exists i, j | 0 <= i < |values| && 0 <= j < |values[i]| :: values[i][j] == Star
  }

  predicate Names(values: seq<seq<Tag>>, rev: Bytes)
  {
    exists i, j | 0 <= i < |values| && 0 <= j < |values[i]| :: values[i][j].Named? && values[i][j].revision == Some(rev)
  }

  /** parseIfMatch: unconditional without the header or with a star; otherwise what is named, weak or not, so a header
      that names nothing matches nothing. */
  method ParseIfMatch(values: seq<seq<Tag>>) returns (c: Condition)
    ensures c == Always <==> values == [] || HasStar(values)
    ensures c.OneOf? ==> forall rev :: rev in c.revisions <==> Names(values, rev)
  {
    if values == [] {
      return Always;
    }
    var revisions: seq<Bytes> := [];
    for i := 0 to |values|
      invariant !HasStar(values[..i])
      invariant forall rev :: rev in revisions <==> Names(values[..i], rev)
    {
      var tags := values[i];
      ghost var before := revisions;
      for j := 0 to |tags|
        invariant Star !in tags[..j]
        invariant forall rev :: rev in revisions <==> rev in before || Named(true, Some(rev)) in tags[..j] || Named(false, Some(rev)) in tags[..j]
      {
        if tags[j] == Star {
          return Always;
        }
        if tags[j].revision.Some? {
          revisions := revisions + [tags[j].revision.value];
        }
        assert tags[..j + 1] == tags[..j] + [tags[j]];
      }
      assert tags[..|tags|] == tags;
      OneMoreHeader(values, i);
    }
    assert values[..|values|] == values;
    c := OneOf(revisions);
  }

  lemma OneMoreHeader(values: seq<seq<Tag>>, i: nat)
    requires i < |values|
    ensures HasStar(values[..i + 1]) <==> HasStar(values[..i]) || Star in values[i]
    ensures forall rev :: Names(values[..i + 1], rev) <==>
                          Names(values[..i], rev) || Named(true, Some(rev)) in values[i] || Named(false, Some(rev)) in values[i]
  {
    assert forall k | 0 <= k < i :: values[..i + 1][k] == values[..i][k];
    assert values[..i + 1][i] == values[i];
    forall rev ensures Names(values[..i + 1], rev) <==>
                       Names(values[..i], rev) || Named(true, Some(rev)) in values[i] || Named(false, Some(rev)) in values[i] {
      if Named(true, Some(rev)) in values[i] {
        var j :| 0 <= j < |values[i]| && values[i][j] == Named(true, Some(rev));
        assert values[..i + 1][i][j] == Named(true, Some(rev));
      }
      if Named(false, Some(rev)) in values[i] {
        var j :| 0 <= j < |values[i]| && values[i][j] == Named(false, Some(rev));
        assert values[..i + 1][i][j] == Named(false, Some(rev));
      }
    }
  }

  // ---- The conditional write ----

  datatype Saved = Written | RevisionMismatch | Invalid

  function Meets(c: Condition, file: Option<Bytes>): bool
  {
    c == Always || (file.Some? && file.value in c.revisions)
  }

  /** The server's config.yaml. Every method runs under the apply lock. */
  class ConfigFile {
    var content: Option<Bytes>

    constructor (content: Option<Bytes>)
      ensures this.content == content
    {
      this.content := content;
    }

    /** SaveConfigYAMLIfMatch: the revision is checked before the draft is validated, and nothing changes unless both pass. */
    method SaveIfMatch(draft: Option<Bytes>, c: Condition) returns (r: Saved)
      modifies this
      ensures r == RevisionMismatch <==> !Meets(c, old(content))
      ensures r == Invalid <==> Meets(c, old(content)) && draft == None
      ensures content == if r == Written then draft else old(content)
    {
      if c.OneOf? {
        if content == None || content.value !in c.revisions {
          return RevisionMismatch;
        }
      }
      if draft == None {
        return Invalid;
      }
      content := draft;
      r := Written;
    }
  }

  // ---- Finding a row again ----

  /** resolveListIndex over the rows' identities: the open index if it still fits, else the only row that does;
      -1 when none does, -2 when it cannot tell. */
  method ResolveIndex<T(==)>(identities: seq<T>, openIndex: int, identity: T) returns (r: int)
    ensures r == -1 <==> identity !in identities
    ensures r >= 0 ==> r < |identities| && identities[r] == identity
    ensures r >= 0 ==> r == openIndex || forall i | 0 <= i < |identities| && identities[i] == identity :: i == r
    ensures r == -2 <==> !(0 <= openIndex < |identities| && identities[openIndex] == identity) &&
                         exists i, j | 0 <= i < j < |identities| :: identities[i] == identity && identities[j] == identity
    ensures r >= -2
  {
    if 0 <= openIndex < |identities| && identities[openIndex] == identity {
      return openIndex;
    }
    var matches: seq<int> := [];
    for i := 0 to |identities|
      invariant forall k | 0 <= k < |matches| :: 0 <= matches[k] < i && identities[matches[k]] == identity
      invariant forall k, m | 0 <= k < m < |matches| :: matches[k] < matches[m]
      invariant forall k | 0 <= k < i && identities[k] == identity :: k in matches
    {
      if identities[i] == identity {
        matches := matches + [i];
      }
    }
    if |matches| == 1 {
      assert forall k | 0 <= k < |identities| && identities[k] == identity :: k == matches[0];
      return matches[0];
    }
    if |matches| == 0 {
      return -1;
    }
    assert identities[matches[0]] == identity && identities[matches[1]] == identity;
    r := -2;
  }

  // ---- Clients ----

  const MAX_SAVE_ATTEMPTS: nat := 3

  // What a client has: bytes, and the revision they came with.
  datatype Base = Base(body: Bytes, rev: Option<Bytes>)

  // Where a client is in saveConfigEdit. attempts counts its refused saves.
  datatype Phase =
    | Resting
    | NeedsHash(edit: Edit, attempts: nat)
    | NeedsBody(edit: Edit, attempts: nat, rev: Bytes)   // the server answered with the hash it read first
    | ReadyToPut(edit: Edit, attempts: nat)
    | ReadsBack(draft: Bytes)
    | ReadsBackBody(draft: Bytes, rev: Bytes)

  datatype Client = Client(base: Option<Base>, phase: Phase)

  // One write of the file, by a client's save or by anything else. A save edited the bytes seen, and replaced before.
  datatype Write = Commit(edit: Edit, seen: Bytes, before: Bytes, after: Bytes) | Elsewhere(content: Bytes)

  // past is every content the file had, oldest first, the current one last; writes is what made them.
  datatype World = World(clients: map<nat, Client>, past: seq<Bytes>, writes: seq<Write>)

  function FileOf(w: World): Bytes
    requires w.past != []
  {
    w.past[|w.past| - 1]
  }

  datatype Event =
    | Begin(client: nat, edit: Edit)
    | Step(client: nat)
    | ReadBackFails(client: nat)
    | Other(content: Bytes)             // a write by something that is not a client

  function ClientOf(w: World, i: nat): Client
  {
    if i in w.clients then w.clients[i] else Client(None, Resting)
  }

  function WithClient(w: World, i: nat, c: Client): World
  {
    w.(clients := w.clients[i := c])
  }

  // The file after a write; writing what is there changes nothing.
  function Wrote(w: World, content: Bytes, how: Write): World
    requires w.past != []
  {
    World(w.clients, if content == FileOf(w) then w.past else w.past + [content], w.writes + [how])
  }

  function AfterFetch(c: Client, body: Bytes, rev: Bytes, attempts: nat, edit: Edit): Client
  {
    Client(Some(Base(body, Some(rev))), if attempts < MAX_SAVE_ATTEMPTS then ReadyToPut(edit, attempts) else Resting)
  }

  // One step of saveConfigEdit and putConfigAtRevision.
  function Stepped(w: World, i: nat): World
    requires w.past != []
  {
    var c, file := ClientOf(w, i), FileOf(w);
    match c.phase
    case Resting => w
    case NeedsHash(edit, n) => WithClient(w, i, c.(phase := NeedsBody(edit, n, file)))
    case NeedsBody(edit, n, rev) => WithClient(w, i, AfterFetch(c, file, rev, n, edit))
    case ReadyToPut(edit, n) =>
      if c.base == None || c.base.value.rev == None then WithClient(w, i, c.(phase := NeedsHash(edit, n)))
      else
        var base := c.base.value;
        var draft := edit(base.body);
        // The server looks at the revision before it looks at the draft.
        if draft == GivesUp then WithClient(w, i, c.(phase := Resting))
        else if file != base.rev.value then WithClient(w, i, c.(phase := NeedsHash(edit, n + 1)))
        else if draft == NotValid then WithClient(w, i, c.(phase := Resting))
        else WithClient(Wrote(w, draft.bytes, Commit(edit, base.body, file, draft.bytes)), i, c.(phase := ReadsBack(draft.bytes)))
    case ReadsBack(draft) => WithClient(w, i, c.(phase := ReadsBackBody(draft, file)))
    case ReadsBackBody(_, rev) => WithClient(w, i, Client(Some(Base(file, Some(rev))), Resting))
  }

  function After(w: World, e: Event): World
    requires w.past != []
  {
    match e
    case Begin(i, edit) =>
      var c := ClientOf(w, i);
      WithClient(w, i, c.(phase := if c.base.Some? && c.base.value.rev.Some? then ReadyToPut(edit, 0) else NeedsHash(edit, 0)))
    case Step(i) => Stepped(w, i)
    case ReadBackFails(i) =>
      var c := ClientOf(w, i);
      (match c.phase
       case ReadsBack(draft) => WithClient(w, i, Client(Some(Base(draft, None)), Resting))
       case ReadsBackBody(draft, _) => WithClient(w, i, Client(Some(Base(draft, None)), Resting))
       case _ => w)
    case Other(content) => Wrote(w, content, Elsewhere(content))
  }

  function AfterRun(w: World, es: seq<Event>): World
    requires w.past != []
    decreases |es|
  {
    if es == [] then w else AfterRun(After(w, es[0]), es[1..])
  }

  function Start(content: Bytes): World
  {
    World(map[], [content], [])
  }

  // ---- Every run ----

  // The content the writes leave of the first one.
  function Stored(first: Bytes, writes: seq<Write>): Bytes
  {
    if writes == [] then first
    else match writes[|writes| - 1] case Commit(_, _, _, after) => after case Elsewhere(content) => content
  }

  // The content they would leave were each save its edit of what was there.
  function Replayed(first: Bytes, writes: seq<Write>): Bytes
  {
    if writes == [] then first
    else
      var before, last := Replayed(first, writes[..|writes| - 1]), writes[|writes| - 1];
      match last
      case Commit(edit, _, _, _) => if edit(before).Content? then edit(before).bytes else before
      case Elsewhere(content) => content
  }

  // Write k replaced what the writes before it left, and stored its edit of what it had seen.
  ghost predicate InPlace(first: Bytes, writes: seq<Write>, k: nat)
    requires k < |writes|
  {
    writes[k].Commit? ==> writes[k].before == Stored(first, writes[..k]) && writes[k].edit(writes[k].seen) == Content(writes[k].after)
  }

  // A save that stored its edit of the file, not of something the file only held at another time.
  predicate Good(k: Write)
  {
    k.Commit? ==> k.edit(k.before) == Content(k.after)
  }

  predicate AttemptsFit(c: Client)
  {
    && (c.phase.ReadyToPut? ==> c.phase.attempts < MAX_SAVE_ATTEMPTS)
    && (c.phase.NeedsHash? || c.phase.NeedsBody? ==> c.phase.attempts <= MAX_SAVE_ATTEMPTS)
  }

  ghost predicate Sound(w: World)
  {
    && w.past != []
    && (forall i | i in w.clients :: AttemptsFit(w.clients[i]))
    && (forall k | 0 <= k < |w.writes| :: InPlace(w.past[0], w.writes, k))
    && FileOf(w) == Stored(w.past[0], w.writes)
  }

  lemma WroteSound(w: World, content: Bytes, how: Write)
    requires Sound(w)
    requires match how { case Commit(edit, seen, before, after) => before == FileOf(w) && after == content && edit(seen) == Content(after)
                        case Elsewhere(c) => c == content }
    ensures Sound(Wrote(w, content, how))
  {
    var r := Wrote(w, content, how);
    assert r.past[0] == w.past[0];
    forall k | 0 <= k < |r.writes| ensures InPlace(r.past[0], r.writes, k) {
      assert k < |w.writes| ==> r.writes[..k] == w.writes[..k] && InPlace(w.past[0], w.writes, k);
      assert k == |w.writes| ==> r.writes[..k] == w.writes;
    }
  }

  lemma EventSound(w: World, e: Event)
    requires Sound(w)
    ensures Sound(After(w, e))
  {
    match e
    case Other(content) => WroteSound(w, content, Elsewhere(content));
    case Step(i) =>
      var c := ClientOf(w, i);
      if c.phase.ReadyToPut? && c.base.Some? && c.base.value.rev == Some(FileOf(w)) {
        var base, edit := c.base.value, c.phase.edit;
        if edit(base.body).Content? {
          WroteSound(w, edit(base.body).bytes, Commit(edit, base.body, FileOf(w), edit(base.body).bytes));
        }
      }
    case _ =>
  }

  lemma {:induction false} RunSound(w: World, es: seq<Event>)
    requires Sound(w)
    ensures Sound(AfterRun(w, es))
    decreases |es|
  {
    if es != [] {
      EventSound(w, es[0]);
      RunSound(After(w, es[0]), es[1..]);
    }
  }

  // With only good saves, what was stored is what replaying gives.
  lemma {:induction false} GoodReplay(first: Bytes, writes: seq<Write>)
    requires forall k | 0 <= k < |writes| :: InPlace(first, writes, k) && Good(writes[k])
    ensures Replayed(first, writes) == Stored(first, writes)
  {
    if writes != [] {
      var n := |writes| - 1;
      var before := writes[..n];
      forall k | 0 <= k < |before| ensures InPlace(first, before, k) && Good(before[k]) {
        assert InPlace(first, writes, k) && before[..k] == writes[..k];
      }
      GoodReplay(first, before);
      assert InPlace(first, writes, n) && Good(writes[n]);
    }
  }

  /** Over every interleaving of clients and other writers, whatever contents come back: a committed save replaced what
      the file held then, and stored its edit of that if and only if the edit makes the same of it as of the bytes the
      client had fetched. When every save did, replaying all writes in order gives the file: no edit is missing from it. */
  lemma CommitsAreExact(content: Bytes, es: seq<Event>)
    ensures var w := AfterRun(Start(content), es);
            && (forall k | 0 <= k < |w.writes| && w.writes[k].Commit? ::
                  && w.writes[k].before == Stored(content, w.writes[..k])
                  && (Good(w.writes[k]) <==> w.writes[k].edit(w.writes[k].before) == w.writes[k].edit(w.writes[k].seen)))
            && w.past != [] && ((forall k | 0 <= k < |w.writes| :: Good(w.writes[k])) ==> FileOf(w) == Replayed(content, w.writes))
  {
    RunSound(Start(content), es);
    FirstStays(Start(content), es);
    var w := AfterRun(Start(content), es);
    forall k | 0 <= k < |w.writes| ensures InPlace(content, w.writes, k) {
      assert InPlace(w.past[0], w.writes, k);
    }
    forall k | 0 <= k < |w.writes| && w.writes[k].Commit?
      ensures w.writes[k].before == Stored(content, w.writes[..k])
      ensures Good(w.writes[k]) <==> w.writes[k].edit(w.writes[k].before) == w.writes[k].edit(w.writes[k].seen)
    {
      assert InPlace(content, w.writes, k);
    }
    if forall k | 0 <= k < |w.writes| :: Good(w.writes[k]) {
      GoodReplay(content, w.writes);
    }
  }

  /** The same before the save: with the file at the revision the client holds, it commits its edit of the file if and
      only if the edit makes the same of the revision's bytes as of those fetched. */
  lemma CommitIsGoodIff(w: World, i: nat)
    requires Sound(w) && ClientOf(w, i).phase.ReadyToPut? && ClientOf(w, i).base.Some? && ClientOf(w, i).base.value.rev == Some(FileOf(w))
    requires ClientOf(w, i).phase.edit(ClientOf(w, i).base.value.body).Content?
    ensures var c, r := ClientOf(w, i), Stepped(w, i);
            && |r.writes| == |w.writes| + 1 && r.writes[|w.writes|].Commit?
            && (FileOf(r) == c.phase.edit(c.base.value.body).bytes)
            && (Good(r.writes[|w.writes|]) <==> c.phase.edit(c.base.value.rev.value) == c.phase.edit(c.base.value.body))
  {
    EventSound(w, Step(i));
  }

  lemma {:induction false} FirstStays(w: World, es: seq<Event>)
    requires w.past != []
    ensures AfterRun(w, es).past != [] && AfterRun(w, es).past[0] == w.past[0]
    decreases |es|
  {
    if es != [] {
      FirstStays(After(w, es[0]), es[1..]);
    }
  }

  /** A save that is about to be tried was refused at most twice before. */
  lemma AttemptsAreBounded(content: Bytes, es: seq<Event>, i: nat)
    ensures var c := ClientOf(AfterRun(Start(content), es), i);
            c.phase.ReadyToPut? ==> c.phase.attempts <= 2
  {
    RunSound(Start(content), es);
  }

  // The client's save is refused: the file is not at the revision it holds, and its edit has something to say.
  predicate IsRefused(w: World, i: nat)
  {
    && w.past != []
    && var c := ClientOf(w, i);
       && c.phase.ReadyToPut? && c.base.Some? && c.base.value.rev.Some? && c.base.value.rev.value != FileOf(w)
       && c.phase.edit(c.base.value.body) != GivesUp
  }

  // The world after the refusal and the fetch that follows it, with nobody else at work.
  function Refetched(w: World, i: nat): World
    requires w.past != []
  {
    After(After(After(w, Step(i)), Step(i)), Step(i))
  }

  /** A refused save changes nothing, fetches the file anew, and is tried again until it was refused three times; then it
      gives up, with the fresh config in hand. */
  lemma RefusedIsTriedAgain(w: World, i: nat)
    requires IsRefused(w, i) && ClientOf(w, i).phase.attempts <= 2
    ensures var c, r := ClientOf(w, i), ClientOf(Refetched(w, i), i);
            && Refetched(w, i).past == w.past && Refetched(w, i).writes == w.writes
            && r.base == Some(Base(FileOf(w), Some(FileOf(w))))
            && r.phase == if c.phase.attempts < 2 then ReadyToPut(c.phase.edit, c.phase.attempts + 1) else Resting
  {
  }

  /** With nobody else at work the second try stores the edit of what is in the file. */
  lemma SecondTryCommits(w: World, i: nat)
    requires IsRefused(w, i) && ClientOf(w, i).phase.attempts < 2 && ClientOf(w, i).phase.edit(FileOf(w)).Content?
    ensures var edit, r := ClientOf(w, i).phase.edit, After(Refetched(w, i), Step(i));
            && r.past != [] && FileOf(r) == edit(FileOf(w)).bytes
            && |r.writes| == |w.writes| + 1 && r.writes[|w.writes|] == Commit(edit, FileOf(w), FileOf(w), edit(FileOf(w)).bytes)
  {
    RefusedIsTriedAgain(w, i);
  }

  // ---- When no fetch is torn ----

  // The second half of a fetch reads the content whose hash the first half read.
  predicate FetchIsWhole(w: World, e: Event)
    requires w.past != []
  {
    e.Step? ==>
      var phase := ClientOf(w, e.client).phase;
      (phase.NeedsBody? ==> phase.rev == FileOf(w)) && (phase.ReadsBackBody? ==> phase.rev == FileOf(w))
  }

  predicate FetchesAreWhole(w: World, es: seq<Event>)
    requires w.past != []
    decreases |es|
  {
    es == [] || (FetchIsWhole(w, es[0]) && FetchesAreWhole(After(w, es[0]), es[1..]))
  }

  predicate HeldWhole(c: Client)
  {
    c.base.Some? && c.base.value.rev.Some? ==> c.base.value.rev == Some(c.base.value.body)
  }

  ghost predicate SawTheFile(w: World)
  {
    forall k | 0 <= k < |w.writes| && w.writes[k].Commit? :: w.writes[k].seen == w.writes[k].before
  }

  lemma {:induction false} WholeRun(w: World, es: seq<Event>)
    requires w.past != [] && FetchesAreWhole(w, es)
    requires (forall i | i in w.clients :: HeldWhole(w.clients[i])) && SawTheFile(w)
    ensures SawTheFile(AfterRun(w, es))
    decreases |es|
  {
    if es != [] {
      var e := es[0];
      if e.Step? || e.Begin? || e.ReadBackFails? {
        assert HeldWhole(ClientOf(w, e.client));
        assert HeldWhole(ClientOf(After(w, e), e.client));
      }
      WholeRun(After(w, e), es[1..]);
    }
  }

  /** When no fetch is torn no update is lost, also when contents come back: every committed save stored its edit of the
      file, and replaying all writes in order gives the file. */
  lemma NoLostUpdate(content: Bytes, es: seq<Event>)
    requires FetchesAreWhole(Start(content), es)
    ensures var w := AfterRun(Start(content), es);
            && (forall k | 0 <= k < |w.writes| && w.writes[k].Commit? :: w.writes[k].edit(w.writes[k].before) == Content(w.writes[k].after))
            && w.past != [] && FileOf(w) == Replayed(content, w.writes)
  {
    WholeRun(Start(content), es);
    CommitsAreExact(content, es);
    var w := AfterRun(Start(content), es);
    forall k | 0 <= k < |w.writes| ensures Good(w.writes[k]) {
      assert w.writes[k].Commit? ==> w.writes[k].seen == w.writes[k].before;
    }
  }

  // ---- When no content comes back ----

  ghost predicate NothingRecurs(w: World, e: Event)
    requires w.past != []
  {
    var now := After(w, e);
    now.past == w.past || FileOf(now) !in w.past
  }

  ghost predicate NeverRecurs(w: World, es: seq<Event>)
    requires w.past != []
    decreases |es|
  {
    es == [] || (NothingRecurs(w, es[0]) && NeverRecurs(After(w, es[0]), es[1..]))
  }

  // rev was the content at some moment, and body the content at that moment or later.
  ghost predicate InTurn(past: seq<Bytes>, rev: Bytes, body: Bytes)
  {
    exists i, j | 0 <= i <= j < |past| :: past[i] == rev && past[j] == body
  }

  ghost predicate ClientFits(past: seq<Bytes>, c: Client)
  {
    && (c.base.Some? && c.base.value.rev.Some? ==> InTurn(past, c.base.value.rev.value, c.base.value.body))
    && (c.phase.NeedsBody? ==> c.phase.rev in past)
    && (c.phase.ReadsBackBody? ==> c.phase.rev in past)
  }

  ghost predicate Ordered(w: World)
  {
    && w.past != []
    && (forall i, j | 0 <= i < j < |w.past| :: w.past[i] != w.past[j])
    && (forall i | i in w.clients :: ClientFits(w.past, w.clients[i]))
    && SawTheFile(w)
  }

  lemma MorePast(past: seq<Bytes>, content: Bytes, c: Client)
    requires ClientFits(past, c)
    ensures ClientFits(past + [content], c)
  {
    if c.base.Some? && c.base.value.rev.Some? {
      var i, j :| 0 <= i <= j < |past| && past[i] == c.base.value.rev.value && past[j] == c.base.value.body;
      assert (past + [content])[i] == c.base.value.rev.value && (past + [content])[j] == c.base.value.body;
    }
  }

  lemma FetchFits(past: seq<Bytes>, rev: Bytes)
    requires past != [] && rev in past
    ensures InTurn(past, rev, past[|past| - 1])
  {
    var i :| 0 <= i < |past| && past[i] == rev;
    assert 0 <= i <= |past| - 1;
  }

  // A held revision that is the file's content was fetched with that content.
  lemma HeldIsCurrent(w: World, base: Base)
    requires Ordered(w) && base.rev.Some? && InTurn(w.past, base.rev.value, base.body) && base.rev.value == FileOf(w)
    ensures base.body == FileOf(w)
  {
    var i, j :| 0 <= i <= j < |w.past| && w.past[i] == base.rev.value && w.past[j] == base.body;
    assert i == |w.past| - 1;
  }

  lemma WroteKeeps(w: World, content: Bytes, how: Write)
    requires Ordered(w) && (content == FileOf(w) || content !in w.past) && (how.Commit? ==> how.seen == how.before)
    ensures Ordered(Wrote(w, content, how))
    ensures forall c | ClientFits(w.past, c) :: ClientFits(Wrote(w, content, how).past, c)
  {
    forall c | ClientFits(w.past, c) ensures ClientFits(Wrote(w, content, how).past, c) {
      MorePast(w.past, content, c);
    }
  }

  lemma ClientKeeps(w: World, i: nat, c: Client)
    requires Ordered(w) && ClientFits(w.past, c)
    ensures Ordered(WithClient(w, i, c))
  {
  }

  lemma PutKeeps(w: World, i: nat)
    requires Ordered(w) && ClientOf(w, i).phase.ReadyToPut? && NothingRecurs(w, Step(i))
    ensures Ordered(Stepped(w, i))
  {
    var c := ClientOf(w, i);
    assert ClientFits(w.past, c);
    if c.base.Some? && c.base.value.rev == Some(FileOf(w)) && c.phase.edit(c.base.value.body).Content? {
      var base, edit := c.base.value, c.phase.edit;
      var draft := edit(base.body).bytes;
      HeldIsCurrent(w, base);
      WroteKeeps(w, draft, Commit(edit, base.body, FileOf(w), draft));
      ClientKeeps(Wrote(w, draft, Commit(edit, base.body, FileOf(w), draft)), i, c.(phase := ReadsBack(draft)));
    } else {
      assert ClientFits(w.past, ClientOf(Stepped(w, i), i));
    }
  }

  lemma EventKeeps(w: World, e: Event)
    requires Ordered(w) && NothingRecurs(w, e)
    ensures Ordered(After(w, e))
  {
    match e
    case Other(content) => WroteKeeps(w, content, Elsewhere(content));
    case Begin(i, _) => assert ClientFits(w.past, ClientOf(w, i));
    case ReadBackFails(i) => assert ClientFits(w.past, ClientOf(w, i));
    case Step(i) =>
      var c := ClientOf(w, i);
      assert ClientFits(w.past, c);
      if c.phase.ReadyToPut? {
        PutKeeps(w, i);
      } else if c.phase.NeedsBody? || c.phase.ReadsBackBody? {
        FetchFits(w.past, c.phase.rev);
      }
  }

  lemma {:induction false} OrderedRun(w: World, es: seq<Event>)
    requires Ordered(w) && NeverRecurs(w, es)
    ensures Ordered(AfterRun(w, es))
    decreases |es|
  {
    if es != [] {
      EventKeeps(w, es[0]);
      OrderedRun(After(w, es[0]), es[1..]);
    }
  }

  /** Nor is an update lost when fetches are torn but the file never goes back to a content it had before: a torn fetch's
      save is refused. */
  lemma NoLostUpdateWithoutRecurrence(content: Bytes, es: seq<Event>)
    requires NeverRecurs(Start(content), es)
    ensures var w := AfterRun(Start(content), es);
            && (forall k | 0 <= k < |w.writes| && w.writes[k].Commit? :: w.writes[k].edit(w.writes[k].before) == Content(w.writes[k].after))
            && w.past != [] && FileOf(w) == Replayed(content, w.writes)
  {
    OrderedRun(Start(content), es);
    CommitsAreExact(content, es);
    var w := AfterRun(Start(content), es);
    forall k | 0 <= k < |w.writes| ensures Good(w.writes[k]) {
      assert w.writes[k].Commit? ==> w.writes[k].seen == w.writes[k].before;
    }
  }

  // ---- A torn fetch, and a content that comes back ----

  function AddTen(b: Bytes): Edited
  {
    Content(b + 10)
  }

  // The client reads the hash of 1, the file becomes 2, the client reads 2, the file becomes 1 again.
  function BackAndForth(): seq<Event>
  {
    [Begin(0, AddTen), Step(0), Other(2), Step(0), Other(1), Step(0)]
  }

  /** With both, a save can commit an edit of bytes that are not in the file: here 1 is overwritten by the edit of 2. */
  lemma TornFetchLosesAnUpdate()
    ensures var w := AfterRun(Start(1), BackAndForth());
            && |w.writes| == 3 && w.writes[2].Commit? && w.writes[2].before == 1 && w.writes[2].after == 12
            && w.writes[2].edit(w.writes[2].before) == Content(11)
  {
    var es := BackAndForth();
    var w0 := Start(1);
    var w1 := Next(w0, es, 0);
    var w2 := Next(w1, es, 1);
    assert ClientOf(w2, 0).phase == NeedsBody(AddTen, 0, 1);
    var w3 := Next(w2, es, 2);
    assert FileOf(w3) == 2;
    var w4 := Next(w3, es, 3);
    assert ClientOf(w4, 0).base == Some(Base(2, Some(1)));
    var w5 := Next(w4, es, 4);
    assert FileOf(w5) == 1;
    var w6 := Next(w5, es, 5);
    assert w6.writes == [Elsewhere(2), Elsewhere(1), Commit(AddTen, 2, 1, 12)];
    assert es[0..] == es;
  }

  // The world after event n, the events before it having led to w.
  lemma Next(w: World, es: seq<Event>, n: nat) returns (now: World)
    requires n < |es| && w.past != []
    ensures now == After(w, es[n]) && now.past != [] && AfterRun(w, es[n..]) == AfterRun(now, es[n + 1..])
    ensures n + 1 == |es| ==> AfterRun(w, es[n..]) == now
  {
    now := After(w, es[n]);
    assert es[n..][1..] == es[n + 1..];
  }
}
