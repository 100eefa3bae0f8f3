/**
 * The message reconciler of `addMessagesToDisplay`: every message already on
 * display is looked up in the pool of incoming messages; a match is spread over
 * it and every pool message with the match's id leaves the pool; what is left
 * of the pool is appended in its given order.
 */
module Reconciler {
  import opened ChatTypes

  /**
   * findMatchingMessageFromMessageList: given a displayed message and the
   * current pool, the pool message it matches, if any. Its rule is not part of
   * this model; the only fact assumed about it is SoundMatcher.
   */
  type Matcher = (Message, seq<Message>) -> Option<Message>

  /** A match, when there is one, is an element of the pool it was looked up in. */
  ghost predicate SoundMatcher(find: Matcher) {
    forall m, pool :: find(m, pool).Some? ==> find(m, pool).value in pool
  }

  /** The pool, in order, without every message whose id is in `dropped` (absent ids compare equal). */
  function Keep(pool: seq<Message>, dropped: set<Option<string>>): (r: seq<Message>)
    ensures |r| <= |pool|
    ensures forall m :: m in r <==> m in pool && m.id !in dropped
  {
    if pool == [] then []
    else (if pool[0].id in dropped then [] else [pool[0]]) + Keep(pool[1..], dropped)
  }

  /** Filtering by one id set and then another is filtering by their union. */
  lemma {:induction false} KeepTwice(pool: seq<Message>, first: set<Option<string>>, second: set<Option<string>>)
    ensures Keep(Keep(pool, first), second) == Keep(pool, first + second)
  {
    if pool != [] {
      KeepTwice(pool[1..], first, second);
      var rest := Keep(pool[1..], first);
      if pool[0].id in first {
        assert Keep(pool, first) == rest;
      } else {
        assert Keep(pool, first) == [pool[0]] + rest;
        assert (Keep(pool, first))[1..] == rest;
      }
    }
  }

  /** Filtering by no id at all keeps the whole pool. */
  lemma {:induction false} KeepNothing(pool: seq<Message>)
    ensures Keep(pool, {}) == pool
  {
    if pool != [] {
      KeepNothing(pool[1..]);
    }
  }

  /** The ids of the matches that were found, one per position that had a match. */
  function MatchedIds(matches: seq<Option<Message>>): (ids: set<Option<string>>)
    ensures forall i :: 0 <= i < |matches| && matches[i].Some? ==> matches[i].value.id in ids
    ensures forall id :: id in ids ==> exists i :: 0 <= i < |matches| && matches[i].Some? && matches[i].value.id == id
  {
    if matches == [] then {}
    else
      var rest := MatchedIds(matches[1..]);
      assert forall id :: id in rest ==> exists i :: 1 <= i < |matches| && matches[i].Some? && matches[i].value.id == id by {
        forall id | id in rest
          ensures exists i :: 1 <= i < |matches| && matches[i].Some? && matches[i].value.id == id
        {
          var j :| 0 <= j < |matches[1..]| && matches[1..][j].Some? && matches[1..][j].value.id == id;
          assert matches[j + 1] == matches[1..][j];
        }
      }
      (if matches[0].Some? then {matches[0].value.id} else {}) + rest
  }

  /** The entry a displayed message becomes: itself, or itself with its match spread over it. */
  function MergeWith(existing: Message, found: Option<Message>): (r: Message)
    ensures found.None? ==> r == existing
    ensures r.id == if found.Some? && found.value.id.Some? then found.value.id else existing.id
  {
    match found
    case None => existing
    case Some(m) => Merge(existing, m)
  }

  /** What reconciling a displayed list against an incoming batch produces. */
  datatype Reconciled = Reconciled(list: seq<Message>, leftover: seq<Message>, matches: seq<Option<Message>>)

  /**
   * The mapping of the displayed list in `addMessagesToDisplay`, left to right, with
   * the pool shrinking after every match; `list` is the mapped list, `leftover`
   * what remains of the pool, `matches` the match found at each position.
   */
  function Reconcile(existing: seq<Message>, pool: seq<Message>, find: Matcher): (r: Reconciled)
    ensures |r.list| == |existing| && |r.matches| == |existing|
  {
    if existing == [] then Reconciled([], pool, [])
    else
      var found := find(existing[0], pool);
      var pool' := if found.Some? then Keep(pool, {found.value.id}) else pool;
      var rest := Reconcile(existing[1..], pool', find);
      Reconciled([MergeWith(existing[0], found)] + rest.list, rest.leftover, [found] + rest.matches)
  }

  /**
   * Every displayed message keeps its index: it stays as it was where no match
   * was found, and is merged with its match where one was.
   */
  lemma {:induction false} ReconcileKeepsPositions(existing: seq<Message>, pool: seq<Message>, find: Matcher)
    ensures var r := Reconcile(existing, pool, find);
      forall i :: 0 <= i < |existing| ==> r.list[i] == MergeWith(existing[i], r.matches[i])
  {
    if existing != [] {
      var found := find(existing[0], pool);
      var pool' := if found.Some? then Keep(pool, {found.value.id}) else pool;
      ReconcileKeepsPositions(existing[1..], pool', find);
      var r := Reconcile(existing, pool, find);
      var rest := Reconcile(existing[1..], pool', find);
      forall i | 0 <= i < |existing|
        ensures r.list[i] == MergeWith(existing[i], r.matches[i])
      {
        if i > 0 {
          assert r.list[i] == rest.list[i - 1] && r.matches[i] == rest.matches[i - 1];
          assert existing[i] == existing[1..][i - 1];
        }
      }
    }
  }

  /**
   * A matcher that respects identity: the match it finds for a message that has
   * an id never carries a different id.
   */
  ghost predicate IdRespecting(find: Matcher) {
    forall m: Message, pool: seq<Message> ::
      m.id.Some? && find(m, pool).Some? && find(m, pool).value.id.Some? ==> find(m, pool).value.id == m.id
  }

  /**
   * Each displayed entry's id after reconciling is its match's id when the match
   * has one, and its own id otherwise.
   */
  lemma {:induction false} ReconcileIds(existing: seq<Message>, pool: seq<Message>, find: Matcher)
    ensures var r := Reconcile(existing, pool, find);
      forall i :: 0 <= i < |existing| ==>
        r.list[i].id == if r.matches[i].Some? && r.matches[i].value.id.Some? then r.matches[i].value.id else existing[i].id
  {
    ReconcileKeepsPositions(existing, pool, find);
  }

  /**
   * Identity stability: with a matcher that respects identity, reconciling never
   * changes the id of a displayed message that has one.
   */
  lemma {:induction false} ReconcileKeepsIds(existing: seq<Message>, pool: seq<Message>, find: Matcher)
    requires IdRespecting(find)
    ensures forall i :: 0 <= i < |existing| && existing[i].id.Some? ==>
      Reconcile(existing, pool, find).list[i].id == existing[i].id
  {
    if existing != [] {
      var found := find(existing[0], pool);
      var pool' := if found.Some? then Keep(pool, {found.value.id}) else pool;
      ReconcileKeepsIds(existing[1..], pool', find);
      var r := Reconcile(existing, pool, find);
      var rest := Reconcile(existing[1..], pool', find);
      forall i | 0 <= i < |existing| && existing[i].id.Some?
        ensures r.list[i].id == existing[i].id
      {
        if i > 0 {
          assert r.list[i] == rest.list[i - 1];
          assert existing[i] == existing[1..][i - 1];
        }
      }
    }
  }

  /**
   * The leftover is the incoming batch, in its own order, without every message
   * whose id is the id of some match.
   */
  lemma {:induction false} ReconcileLeftover(existing: seq<Message>, pool: seq<Message>, find: Matcher)
    ensures Reconcile(existing, pool, find).leftover == Keep(pool, MatchedIds(Reconcile(existing, pool, find).matches))
  {
    var r := Reconcile(existing, pool, find);
    if existing == [] {
      KeepNothing(pool);
    } else {
      var found := find(existing[0], pool);
      var pool' := if found.Some? then Keep(pool, {found.value.id}) else pool;
      var rest := Reconcile(existing[1..], pool', find);
      ReconcileLeftover(existing[1..], pool', find);
      assert r.matches == [found] + rest.matches;
      assert r.matches[1..] == rest.matches;
      if found.Some? {
        assert MatchedIds(r.matches) == {found.value.id} + MatchedIds(rest.matches);
        KeepTwice(pool, {found.value.id}, MatchedIds(rest.matches));
      } else {
        assert MatchedIds(r.matches) == MatchedIds(rest.matches);
      }
    }
  }

  /** An empty batch leaves nothing to append. */
  lemma NothingToReconcile(existing: seq<Message>, find: Matcher)
    ensures Reconcile(existing, [], find).leftover == []
  {
    ReconcileLeftover(existing, [], find);
  }

  /** With a sound matcher, every match is a message of the incoming batch. */
  lemma {:induction false} MatchesComeFromBatch(existing: seq<Message>, pool: seq<Message>, find: Matcher)
    requires SoundMatcher(find)
    ensures forall i :: 0 <= i < |existing| && Reconcile(existing, pool, find).matches[i].Some? ==>
      Reconcile(existing, pool, find).matches[i].value in pool
  {
    if existing != [] {
      var found := find(existing[0], pool);
      var pool' := if found.Some? then Keep(pool, {found.value.id}) else pool;
      MatchesComeFromBatch(existing[1..], pool', find);
      var r := Reconcile(existing, pool, find);
      var rest := Reconcile(existing[1..], pool', find);
      assert r.matches == [found] + rest.matches;
      forall i | 0 <= i < |existing| && r.matches[i].Some?
        ensures r.matches[i].value in pool
      {
        if i > 0 {
          assert r.matches[i] == rest.matches[i - 1];
        }
      }
    }
  }

  /**
   * Nothing is left to append exactly when every incoming message shares its id
   * with some match; so a match without an id drops every incoming message
   * without an id.
   */
  lemma NothingLeftIffAllClaimed(existing: seq<Message>, pool: seq<Message>, find: Matcher)
    ensures var r := Reconcile(existing, pool, find);
      r.leftover == [] <==> forall m :: m in pool ==> m.id in MatchedIds(r.matches)
    ensures var r := Reconcile(existing, pool, find);
      (exists i :: 0 <= i < |existing| && r.matches[i].Some? && r.matches[i].value.id.None?) ==>
        forall m :: m in r.leftover ==> m.id.Some?
  {
    var r := Reconcile(existing, pool, find);
    ReconcileLeftover(existing, pool, find);
    if r.leftover != [] {
      assert r.leftover[0] in r.leftover;
    }
  }

  /** One step of Reconcile on the suffix of `existing` that starts at `i`. */
  lemma ReconcileStep(existing: seq<Message>, i: nat, pool: seq<Message>, find: Matcher)
    requires i < |existing|
    ensures var found := find(existing[i], pool);
      var rest := Reconcile(existing[i + 1..], if found.Some? then Keep(pool, {found.value.id}) else pool, find);
      && Reconcile(existing[i..], pool, find).list == [MergeWith(existing[i], found)] + rest.list
      && Reconcile(existing[i..], pool, find).leftover == rest.leftover
  {
    assert existing[i..][0] == existing[i] && existing[i..][1..] == existing[i + 1..];
  }

  /**
   * The loop of `addMessagesToDisplay`: it walks the displayed list, shrinking
   * the incoming pool after each match, then appends what is left of the pool.
   * Returns the new list and the messages appended to it.
   */
  method MergeIncoming(existing: seq<Message>, incoming: seq<Message>, find: Matcher)
    returns (newList: seq<Message>, appended: seq<Message>)
    ensures newList == Reconcile(existing, incoming, find).list + Reconcile(existing, incoming, find).leftover
    ensures appended == Reconcile(existing, incoming, find).leftover
    ensures |newList| == |existing| + |appended|
  {
    var received := incoming;
    var mapped: seq<Message> := [];
    var i := 0;
    while i < |existing|
      invariant 0 <= i <= |existing|
      invariant Reconcile(existing, incoming, find).list == mapped + Reconcile(existing[i..], received, find).list
      invariant Reconcile(existing, incoming, find).leftover == Reconcile(existing[i..], received, find).leftover
    {
      var existingMessage := existing[i];
      var matching := find(existingMessage, received);
      ReconcileStep(existing, i, received, find);
      ghost var rest := Reconcile(existing[i + 1..], if matching.Some? then Keep(received, {matching.value.id}) else received, find);
      ghost var entry := MergeWith(existingMessage, matching);
      ghost var before := mapped;
      if matching.None? {
        mapped := mapped + [existingMessage];
      } else {
        received := Keep(received, {matching.value.id});
        mapped := mapped + [Merge(existingMessage, matching.value)];
      }
      assert mapped == before + [entry];
      assert before + ([entry] + rest.list) == mapped + rest.list;
      i := i + 1;
    }
    newList := mapped + received;
    appended := received;
  }

  /**
   * The id-based replace of `updateMessage` and of the ASK_PERMISSION_IGNORED
   * case: every message whose id equals `msg`'s id (absent ids compare equal)
   * is replaced by `msg`.
   */
  function ReplaceById(messages: seq<Message>, msg: Message): (r: seq<Message>)
    ensures |r| == |messages|
    ensures forall i :: 0 <= i < |messages| ==> r[i] == if messages[i].id == msg.id then msg else messages[i]
  {
    if messages == [] then []
    else [if messages[0].id == msg.id then msg else messages[0]] + ReplaceById(messages[1..], msg)
  }

  /**
   * Replacing by id is idempotent, puts `msg` in the list exactly when some
   * message had its id, and leaves the list as it was when none had.
   */
  lemma ReplaceByIdLaws(messages: seq<Message>, msg: Message)
    ensures ReplaceById(ReplaceById(messages, msg), msg) == ReplaceById(messages, msg)
    ensures (forall i :: 0 <= i < |messages| ==> messages[i].id != msg.id) ==> ReplaceById(messages, msg) == messages
    ensures (exists i :: 0 <= i < |messages| && messages[i].id == msg.id) ==> msg in ReplaceById(messages, msg)
  {
  }
}
