/**
 * The forum vote route (`POST` adds a vote, `DELETE` removes one): it
 * validates the vote type and the target, then increments or decrements
 * one counter of one thread or one comment.
 */
module VoteRoute {
  import opened Wrappers
  import opened Json
  import opened Http
  import opened Schema

  datatype VoteType = Up | Down

  datatype TargetKind = OnThread | OnComment

  /** The reply of a successful vote: `{ type, id, upvotes, downvotes }` of the updated row. */
  datatype VoteResult = VoteResult(target: TargetKind, id: Id, upvotes: int, downvotes: int)

  const INVALID_VOTE_TYPE := "Invalid vote type. Must be \"up\" or \"down\""
  const MISSING_TARGET := "Either threadId or commentId must be provided"
  const BOTH_TARGETS := "Cannot vote on both thread and comment at the same time"
  const VOTE_FAILED := "Failed to process vote"
  const REMOVE_INVALID_VOTE_TYPE := "Invalid vote type"
  const REMOVE_NO_TARGET := "No threadId or commentId provided"
  const REMOVE_FAILED := "Failed to remove vote"

  /** `voteType` is accepted exactly when it is the string "up" or the string "down". */
  function ParseVoteType(v: Value): (r: Option<VoteType>)
    ensures r.Some? ==> Truthy(v)
    ensures r == Some(Up) <==> v == Str("up")
    ensures r == Some(Down) <==> v == Str("down")
  {
    if v == Str("up") then Some(Up) else if v == Str("down") then Some(Down) else None
  }

  // ---------------------------------------------------------------------------
  // Counter updates on the tables

  function TallyThread(t: ForumThread, kind: VoteType, delta: int): ForumThread {
    if kind == Up then t.(upvotes := t.upvotes + delta) else t.(downvotes := t.downvotes + delta)
  }

  /**
   * `forumThread.update({ where: { id }, data: { <counter>: { increment: delta } } })`:
   * the thread with that id has the chosen counter moved by `delta`, and
   * nothing else in the table changes.
   */
  function VoteOnThreads(threads: seq<ForumThread>, id: Id, kind: VoteType, delta: int): (r: seq<ForumThread>)
    ensures |r| == |threads|
    ensures forall i :: 0 <= i < |threads| && threads[i].id != id ==> r[i] == threads[i]
    ensures forall i :: 0 <= i < |threads| && threads[i].id == id ==>
      && r[i].(upvotes := threads[i].upvotes, downvotes := threads[i].downvotes) == threads[i]
      && r[i].upvotes == threads[i].upvotes + (if kind == Up then delta else 0)
      && r[i].downvotes == threads[i].downvotes + (if kind == Down then delta else 0)
  {
    seq(|threads|, i requires 0 <= i < |threads| =>
      if threads[i].id == id then TallyThread(threads[i], kind, delta) else threads[i])
  }

  function TallyComment(c: Comment, kind: VoteType, delta: int): Comment {
    if kind == Up then c.(upvotes := c.upvotes + delta) else c.(downvotes := c.downvotes + delta)
  }

  /** The comment counterpart of VoteOnThreads. */
  function VoteOnComments(comments: seq<Comment>, id: Id, kind: VoteType, delta: int): (r: seq<Comment>)
    ensures |r| == |comments|
    ensures forall i :: 0 <= i < |comments| && comments[i].id != id ==> r[i] == comments[i]
    ensures forall i :: 0 <= i < |comments| && comments[i].id == id ==>
      && r[i].(upvotes := comments[i].upvotes, downvotes := comments[i].downvotes) == comments[i]
      && r[i].upvotes == comments[i].upvotes + (if kind == Up then delta else 0)
      && r[i].downvotes == comments[i].downvotes + (if kind == Down then delta else 0)
  {
    seq(|comments|, i requires 0 <= i < |comments| =>
      if comments[i].id == id then TallyComment(comments[i], kind, delta) else comments[i])
  }

  /** Removing a vote undoes adding it: counters have no lower bound, so the round trip is exact. */
  lemma VoteThenRemoveThread(threads: seq<ForumThread>, id: Id, kind: VoteType)
    ensures VoteOnThreads(VoteOnThreads(threads, id, kind, 1), id, kind, -1) == threads
  {
    var r := VoteOnThreads(VoteOnThreads(threads, id, kind, 1), id, kind, -1);
    forall i | 0 <= i < |threads| ensures r[i] == threads[i] {
      if threads[i].id == id {
        assert r[i].(upvotes := threads[i].upvotes, downvotes := threads[i].downvotes) == threads[i];
      }
    }
  }

  /** Removing a vote undoes adding it, for comments. */
  lemma VoteThenRemoveComment(comments: seq<Comment>, id: Id, kind: VoteType)
    ensures VoteOnComments(VoteOnComments(comments, id, kind, 1), id, kind, -1) == comments
  {
    var r := VoteOnComments(VoteOnComments(comments, id, kind, 1), id, kind, -1);
    forall i | 0 <= i < |comments| ensures r[i] == comments[i] {
      if comments[i].id == id {
        assert r[i].(upvotes := comments[i].upvotes, downvotes := comments[i].downvotes) == comments[i];
      }
    }
  }

  /** A removal on a counter at 0 leaves it at -1: nothing clamps counters at zero. */
  lemma RemoveGoesNegative(threads: seq<ForumThread>, i: nat)
    requires i < |threads| && threads[i].upvotes == 0
    ensures VoteOnThreads(threads, threads[i].id, Up, -1)[i].upvotes == -1
  {
  }

  /** The sum of `upvotes` over a table of threads. */
  function UpvoteTotal(threads: seq<ForumThread>): int {
    if threads == [] then 0 else threads[0].upvotes + UpvoteTotal(threads[1..])
  }

  /** The sum of `downvotes` over a table of threads. */
  function DownvoteTotal(threads: seq<ForumThread>): int {
    if threads == [] then 0 else threads[0].downvotes + DownvoteTotal(threads[1..])
  }

  /**
   * With unique ids, a vote on an existing thread moves the table-wide total
   * of the chosen counter by exactly `delta` and leaves the other total alone:
   * exactly one row is affected.
   */
  lemma {:induction false} VoteMovesOneCounter(threads: seq<ForumThread>, id: Id, kind: VoteType, delta: int)
    requires UniqueKeys(threads, ThreadKey) && id in Keys(threads, ThreadKey)
    ensures UpvoteTotal(VoteOnThreads(threads, id, kind, delta)) == UpvoteTotal(threads) + (if kind == Up then delta else 0)
    ensures DownvoteTotal(VoteOnThreads(threads, id, kind, delta)) == DownvoteTotal(threads) + (if kind == Down then delta else 0)
  {
    var r := VoteOnThreads(threads, id, kind, delta);
    var rest := threads[1..];
    assert r[1..] == VoteOnThreads(rest, id, kind, delta);
    if threads[0].id == id {
      assert VoteOnThreads(rest, id, kind, delta) == rest by {
        forall j | 0 <= j < |rest| ensures rest[j].id != id {
          assert ThreadKey(threads[0]) != ThreadKey(threads[j + 1]);
        }
      }
    } else {
      assert id in Keys(rest, ThreadKey) by {
        var t :| t in threads && t.id == id;
        assert t in rest;
      }
      assert UniqueKeys(rest, ThreadKey) by {
        forall i, j | 0 <= i < j < |rest| ensures ThreadKey(rest[i]) != ThreadKey(rest[j]) {
          assert rest[i] == threads[i + 1] && rest[j] == threads[j + 1];
        }
      }
      VoteMovesOneCounter(rest, id, kind, delta);
    }
  }

  // ---------------------------------------------------------------------------
  // The ORM update and the two handlers

  /** The reply and table after updating the thread named by `target`; an unknown or non-string id fails with 500. */
  ghost predicate ThreadUpdated(before: seq<ForumThread>, after: seq<ForumThread>, target: Value,
                                kind: VoteType, delta: int, failure: string, r: Reply<VoteResult>)
  {
    if target.Str? && target.s in Keys(before, ThreadKey) then
      && after == VoteOnThreads(before, target.s, kind, delta)
      && exists t :: t in after && t.id == target.s && r == Success(OK, VoteResult(OnThread, t.id, t.upvotes, t.downvotes))
    else
      after == before && r == Failure(SERVER_ERROR, failure)
  }

  /** The comment counterpart of ThreadUpdated. */
  ghost predicate CommentUpdated(before: seq<Comment>, after: seq<Comment>, target: Value,
                                 kind: VoteType, delta: int, failure: string, r: Reply<VoteResult>)
  {
    if target.Str? && target.s in Keys(before, CommentKey) then
      && after == VoteOnComments(before, target.s, kind, delta)
      && exists c :: c in after && c.id == target.s && r == Success(OK, VoteResult(OnComment, c.id, c.upvotes, c.downvotes))
    else
      after == before && r == Failure(SERVER_ERROR, failure)
  }

  method UpdateThread(db: Database, target: Value, kind: VoteType, delta: int, failure: string) returns (r: Reply<VoteResult>)
    requires db.Valid()
    modifies db`threads
    ensures db.Valid()
    ensures ThreadUpdated(old(db.threads), db.threads, target, kind, delta, failure, r)
  {
    if target.Str? && FindBy(db.threads, ThreadKey, target.s).Some? {
      var before := db.threads;
      db.threads := VoteOnThreads(before, target.s, kind, delta);
      SameKeys(before, db.threads, ThreadKey);
      var t := FindBy(db.threads, ThreadKey, target.s).value;
      r := Success(OK, VoteResult(OnThread, t.id, t.upvotes, t.downvotes));
    } else {
      r := Failure(SERVER_ERROR, failure);
    }
  }

  method UpdateComment(db: Database, target: Value, kind: VoteType, delta: int, failure: string) returns (r: Reply<VoteResult>)
    requires db.Valid()
    modifies db`comments
    ensures db.Valid()
    ensures CommentUpdated(old(db.comments), db.comments, target, kind, delta, failure, r)
  {
    if target.Str? && FindBy(db.comments, CommentKey, target.s).Some? {
      var before := db.comments;
      db.comments := VoteOnComments(before, target.s, kind, delta);
      SameKeys(before, db.comments, CommentKey);
      var c := FindBy(db.comments, CommentKey, target.s).value;
      r := Success(OK, VoteResult(OnComment, c.id, c.upvotes, c.downvotes));
    } else {
      r := Failure(SERVER_ERROR, failure);
    }
  }

  /**
   * `POST`: the vote type is checked first, then that exactly one of
   * `threadId` and `commentId` is truthy; only then is the one target's
   * counter incremented. Every rejection leaves both tables unchanged.
   */
  method Post(db: Database, body: Body) returns (r: Reply<VoteResult>)
    requires db.Valid()
    modifies db`threads, db`comments
    ensures db.Valid()
    ensures var kind, t, c := ParseVoteType(Field(body, "voteType")), Field(body, "threadId"), Field(body, "commentId");
      && (kind == None ==>
            r == Failure(BAD_REQUEST, INVALID_VOTE_TYPE) && db.threads == old(db.threads) && db.comments == old(db.comments))
      && (kind != None && Falsy(t) && Falsy(c) ==>
            r == Failure(BAD_REQUEST, MISSING_TARGET) && db.threads == old(db.threads) && db.comments == old(db.comments))
      && (kind != None && Truthy(t) && Truthy(c) ==>
            r == Failure(BAD_REQUEST, BOTH_TARGETS) && db.threads == old(db.threads) && db.comments == old(db.comments))
      && (kind != None && Truthy(t) && Falsy(c) ==>
            ThreadUpdated(old(db.threads), db.threads, t, kind.value, 1, VOTE_FAILED, r) && db.comments == old(db.comments))
      && (kind != None && Falsy(t) && Truthy(c) ==>
            CommentUpdated(old(db.comments), db.comments, c, kind.value, 1, VOTE_FAILED, r) && db.threads == old(db.threads))
  {
    var kind := ParseVoteType(Field(body, "voteType"));
    var threadId, commentId := Field(body, "threadId"), Field(body, "commentId");
    if kind == None {
      return Failure(BAD_REQUEST, INVALID_VOTE_TYPE);
    }
    if Falsy(threadId) && Falsy(commentId) {
      return Failure(BAD_REQUEST, MISSING_TARGET);
    }
    if Truthy(threadId) && Truthy(commentId) {
      return Failure(BAD_REQUEST, BOTH_TARGETS);
    }
    if Truthy(threadId) {
      r := UpdateThread(db, threadId, kind.value, 1, VOTE_FAILED);
    } else {
      r := UpdateComment(db, commentId, kind.value, 1, VOTE_FAILED);
    }
  }

  /**
   * `DELETE`: after the vote-type check, a truthy `threadId` wins (even when
   * `commentId` is also given), then a truthy `commentId`; the chosen counter
   * is decremented with no lower bound. With neither id the reply is 400.
   */
  method Delete(db: Database, body: Body) returns (r: Reply<VoteResult>)
    requires db.Valid()
    modifies db`threads, db`comments
    ensures db.Valid()
    ensures var kind, t, c := ParseVoteType(Field(body, "voteType")), Field(body, "threadId"), Field(body, "commentId");
      && (kind == None ==>
            r == Failure(BAD_REQUEST, REMOVE_INVALID_VOTE_TYPE) && db.threads == old(db.threads) && db.comments == old(db.comments))
      && (kind != None && Truthy(t) ==>
            ThreadUpdated(old(db.threads), db.threads, t, kind.value, -1, REMOVE_FAILED, r) && db.comments == old(db.comments))
      && (kind != None && Falsy(t) && Truthy(c) ==>
            CommentUpdated(old(db.comments), db.comments, c, kind.value, -1, REMOVE_FAILED, r) && db.threads == old(db.threads))
      && (kind != None && Falsy(t) && Falsy(c) ==>
            r == Failure(BAD_REQUEST, REMOVE_NO_TARGET) && db.threads == old(db.threads) && db.comments == old(db.comments))
  {
    var kind := ParseVoteType(Field(body, "voteType"));
    var threadId, commentId := Field(body, "threadId"), Field(body, "commentId");
    if kind == None {
      return Failure(BAD_REQUEST, REMOVE_INVALID_VOTE_TYPE);
    }
    if Truthy(threadId) {
      r := UpdateThread(db, threadId, kind.value, -1, REMOVE_FAILED);
    } else if Truthy(commentId) {
      r := UpdateComment(db, commentId, kind.value, -1, REMOVE_FAILED);
    } else {
      r := Failure(BAD_REQUEST, REMOVE_NO_TARGET);
    }
  }
}
