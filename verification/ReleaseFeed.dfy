/**
 The catalogue cache as a guard against older generations: clients read it, fetch a catalogue without
 holding its lock, and only then check and replace it under the lock.
 */
module ReleaseFeed {
  import opened Wrappers
  import R = Releases

  type ClientId = nat

  datatype Cached = Cached(catalogue: R.Catalogue, etag: Option<string>)

  /** What a request brought: not modified, a document that did not parse, or one that did. */
  datatype Response = NotModified | Invalid | Fresh(catalogue: R.Catalogue, etag: Option<string>)

  datatype Client = Requesting(cached: Option<Cached>) | Committing(candidate: Cached)

  /** `accepted` lists the catalogues that catalogue() returned, in the order of their commits. */
  datatype State = State(cache: Option<Cached>, clients: map<ClientId, Client>, accepted: seq<R.Catalogue>)

  datatype Action = Begin(id: ClientId) | Receive(id: ClientId, response: Response) | Commit(id: ClientId) | Dies(id: ClientId)

  function Initial(): State {
    State(None, map[], [])
  }

  function Left(s: State, id: ClientId): State {
    s.(clients := map j | j in s.clients && j != id :: s.clients[j])
  }

  /** A 304 stands for the copy the client read, and only answers a request that carried its etag. */
  function Candidate(cached: Option<Cached>, response: Response): Option<Cached> {
    match response
    case NotModified => if cached.Some? && cached.value.etag.Some? then cached else None
    case Invalid => None
    case Fresh(catalogue, etag) => if R.Valid(catalogue) then Some(Cached(catalogue, etag)) else None
  }

  predicate MayReplace(cache: Option<Cached>, candidate: Cached) {
    cache.Some? ==> R.Succeeds(candidate.catalogue, cache.value.catalogue)
  }

  function Step(s: State, a: Action): State {
    match a
    case Begin(id) => if id in s.clients then s else s.(clients := s.clients[id := Requesting(s.cache)])
    case Receive(id, response) =>
      if id !in s.clients || !s.clients[id].Requesting? then s
      else
        (match Candidate(s.clients[id].cached, response)
         case None => Left(s, id)
         case Some(candidate) => s.(clients := s.clients[id := Committing(candidate)]))
    case Commit(id) =>
      if id !in s.clients || !s.clients[id].Committing? then s
      else
        var candidate := s.clients[id].candidate;
        if MayReplace(s.cache, candidate) then
          Left(s, id).(cache := Some(candidate), accepted := s.accepted + [candidate.catalogue])
        else Left(s, id)
    case Dies(id) => Left(s, id)
  }

  function Run(actions: seq<Action>): State {
    if actions == [] then Initial() else Step(Run(actions[..|actions| - 1]), actions[|actions| - 1])
  }

  /** The critical section of catalogue(): read, compare and replace under the lock. */
  class CacheFile {
    var cache: Option<Cached>

    constructor ()
      ensures cache == None
    {
      cache := None;
    }

    method Offer(candidate: Cached) returns (accepted: bool)
      modifies this
      ensures accepted == MayReplace(old(cache), candidate)
      ensures cache == if accepted then Some(candidate) else old(cache)
    {
      var previous := cache;
      if previous.Some? && !R.Succeeds(candidate.catalogue, previous.value.catalogue) { return false; }
      cache := Some(candidate);
      return true;
    }
  }

  ghost predicate ClientOk(c: Client) {
    match c
    case Requesting(cached) => cached.Some? ==> R.Valid(cached.value.catalogue)
    case Committing(candidate) => R.Valid(candidate.catalogue)
  }

  /** Every accepted catalogue succeeds all earlier ones, and the cache holds the last. */
  ghost predicate Inv(s: State) {
    && (forall i :: 0 <= i < |s.accepted| ==> R.Valid(s.accepted[i]))
    && (forall i, j :: 0 <= i <= j < |s.accepted| ==> R.Succeeds(s.accepted[j], s.accepted[i]))
    && (s.cache.None? <==> s.accepted == [])
    && (s.cache.Some? ==> s.cache.value.catalogue == s.accepted[|s.accepted| - 1])
    && (forall id :: id in s.clients ==> ClientOk(s.clients[id]))
  }

  lemma AcceptKeeps(s: State, candidate: Cached)
    requires Inv(s) && R.Valid(candidate.catalogue) && MayReplace(s.cache, candidate)
    ensures Inv(s.(cache := Some(candidate), accepted := s.accepted + [candidate.catalogue]))
  {
    var c := candidate.catalogue;
    R.SuccessionIsReflexive(c);
    forall i | 0 <= i < |s.accepted| ensures R.Succeeds(c, s.accepted[i]) {
      assert R.Succeeds(s.accepted[|s.accepted| - 1], s.accepted[i]);
      R.SuccessionIsTransitive(s.accepted[i], s.accepted[|s.accepted| - 1], c);
    }
  }

  lemma StepKeeps(s: State, a: Action)
    requires Inv(s)
    ensures Inv(Step(s, a))
  {
    if a.Commit? && a.id in s.clients && s.clients[a.id].Committing? {
      assert ClientOk(s.clients[a.id]);
      if MayReplace(s.cache, s.clients[a.id].candidate) { AcceptKeeps(s, s.clients[a.id].candidate); }
    } else if a.Receive? && a.id in s.clients {
      assert ClientOk(s.clients[a.id]);
    }
  }

  lemma {:induction false} EveryRunKeeps(actions: seq<Action>)
    ensures Inv(Run(actions))
  {
    if actions != [] {
      EveryRunKeeps(actions[..|actions| - 1]);
      StepKeeps(Run(actions[..|actions| - 1]), actions[|actions| - 1]);
    }
  }

  /** Stale clients and delayed responses included, the cache only ever moves to a successor. */
  lemma {:induction false} CacheNeverRegresses(before: seq<Action>, after: seq<Action>)
    requires Run(before).cache.Some?
    ensures Run(before + after).cache.Some?
    ensures R.Succeeds(Run(before + after).cache.value.catalogue, Run(before).cache.value.catalogue)
    ensures Run(before).accepted <= Run(before + after).accepted
  {
    AcceptedGrows(before, after);
    EveryRunKeeps(before);
    EveryRunKeeps(before + after);
    var n := |Run(before).accepted| - 1;
    assert Run(before + after).accepted[n] == Run(before).accepted[n];
  }

  lemma {:induction false} AcceptedGrows(before: seq<Action>, after: seq<Action>)
    ensures Run(before).accepted <= Run(before + after).accepted
  {
    if after == [] {
      assert before + after == before;
    } else {
      var most := after[..|after| - 1];
      assert (before + after)[..|before + after| - 1] == before + most;
      AcceptedGrows(before, most);
    }
  }

  /** Once any client accepted a catalogue that withdraws a version, no later one offers it to anyone. */
  lemma WithdrawnStaysWithdrawn(actions: seq<Action>, i: nat, j: nat, channel: R.Channel, version: R.Version)
    requires i <= j < |Run(actions).accepted| && version in Run(actions).accepted[i].withdrawn
    ensures R.Latest(Run(actions).accepted[j], channel).Some? ==>
              R.Latest(Run(actions).accepted[j], channel).value.version != version
  {
    EveryRunKeeps(actions);
    R.WithdrawnIsNeverOfferedAgain(Run(actions).accepted[i], Run(actions).accepted[j], channel, version);
  }

  /**
   Whatever clients read, responses and deaths came between: while the candidates that a client was
   offered from stay eligible, no client is later offered an older version, nor nothing.
   */
  lemma LaterOffersAreNotOlder(actions: seq<Action>, i: nat, j: nat, channel: R.Channel)
    requires i <= j < |Run(actions).accepted| && R.Latest(Run(actions).accepted[i], channel).Some?
    requires var before, after := Run(actions).accepted[i], Run(actions).accepted[j];
             && (R.Eligible(before, before.stable) ==> R.Eligible(after, after.stable))
             && (R.Eligible(before, before.preview) ==> R.Eligible(after, after.preview))
    ensures var before, after := R.Latest(Run(actions).accepted[i], channel), R.Latest(Run(actions).accepted[j], channel);
            after.Some? && !after.value.version.Below(before.value.version)
  {
    EveryRunKeeps(actions);
    R.OffersNeverRegress(Run(actions).accepted[i], Run(actions).accepted[j], channel);
  }

  /** Accepted generations never decrease, and equal generations are equal catalogues. */
  lemma GenerationsIdentifyCatalogues(actions: seq<Action>, i: nat, j: nat)
    requires i < |Run(actions).accepted| && j < |Run(actions).accepted|
    ensures Run(actions).accepted[i].generation == Run(actions).accepted[j].generation <==>
            Run(actions).accepted[i] == Run(actions).accepted[j]
  {
    EveryRunKeeps(actions);
    if i <= j {
      assert R.Succeeds(Run(actions).accepted[j], Run(actions).accepted[i]);
    } else {
      assert R.Succeeds(Run(actions).accepted[i], Run(actions).accepted[j]);
    }
  }
}
