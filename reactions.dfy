/** `hasReaction` and the heart toggle of `CommentItem` in src/components.jsx. */
module Reactions {
  import opened Schema

  /** The viewer has reacted when some reaction group says so. */
  ghost predicate ViewerReacted(groups: seq<ReactionGroup>) {
    exists i :: 0 <= i < |groups| && groups[i].viewerHasReacted
  }

  /** `hasReaction(reactionGroups)`: a flag that starts false and is set to
      true by every group whose `viewerHasReacted` holds; it is never reset. */
  method HasReaction(groups: seq<ReactionGroup>) returns (reactedTrue: bool)
    ensures reactedTrue == ViewerReacted(groups)
  {
    reactedTrue := false;
    var i := 0;
    while i < |groups|
      invariant 0 <= i <= |groups|
      invariant reactedTrue == ViewerReacted(groups[..i])
    {
      if groups[i].viewerHasReacted {
        reactedTrue := true;
      }
      assert groups[..i + 1] == groups[..i] + [groups[i]];
      ViewerReactedConcat(groups[..i], [groups[i]]);
      i := i + 1;
    }
    assert groups[..i] == groups;
  }

  /** Nobody has reacted in an empty list of groups. */
  lemma NoReactionInEmpty()
    ensures !ViewerReacted([])
  {
  }

  /** The flag over a concatenation is the disjunction of the flags. */
  lemma ViewerReactedConcat(a: seq<ReactionGroup>, b: seq<ReactionGroup>)
    ensures ViewerReacted(a + b) == (ViewerReacted(a) || ViewerReacted(b))
  {
    if ViewerReacted(a + b) {
      var i :| 0 <= i < |a + b| && (a + b)[i].viewerHasReacted;
      if i < |a| {
        assert a[i] == (a + b)[i];
      } else {
        assert b[i - |a|] == (a + b)[i];
      }
    }
    if ViewerReacted(a) {
      var i :| 0 <= i < |a| && a[i].viewerHasReacted;
      assert (a + b)[i] == a[i];
    }
    if ViewerReacted(b) {
      var j :| 0 <= j < |b| && b[j].viewerHasReacted;
      assert (a + b)[|a| + j] == b[j];
    }
  }

  /** The flag is membership of a reacting group. */
  lemma ViewerReactedIsMembership(groups: seq<ReactionGroup>)
    ensures ViewerReacted(groups) == (ReactionGroup(true) in groups)
  {
    if ViewerReacted(groups) {
      var i :| 0 <= i < |groups| && groups[i].viewerHasReacted;
      assert groups[i] == ReactionGroup(true);
    }
  }

  /** The order of the groups does not matter: any permutation gives the same flag. */
  lemma ViewerReactedIgnoresOrder(a: seq<ReactionGroup>, b: seq<ReactionGroup>)
    requires multiset(a) == multiset(b)
    ensures ViewerReacted(a) == ViewerReacted(b)
  {
    ViewerReactedIsMembership(a);
    ViewerReactedIsMembership(b);
    assert ReactionGroup(true) in a <==> ReactionGroup(true) in multiset(a);
    assert ReactionGroup(true) in b <==> ReactionGroup(true) in multiset(b);
  }

  const RemoveHeartLabel: string := "Remove Heart From Comment"
  const AddHeartLabel: string := "Add Heart to Comment"

  /** The heart button of one comment: the arguments its click passes to
      `onReactionToIssue` and the label it shows. Both call `hasReaction`
      on the comment's reaction groups. */
  method HeartToggle(comment: Comment) returns (subjectId: string, alreadyReacted: bool, caption: string)
    ensures subjectId == comment.id
    ensures alreadyReacted == ViewerReacted(comment.reactionGroups)
    ensures caption == RemoveHeartLabel <==> alreadyReacted
    ensures caption == AddHeartLabel <==> !alreadyReacted
  {
    subjectId := comment.id;
    alreadyReacted := HasReaction(comment.reactionGroups);
    var shown := HasReaction(comment.reactionGroups);
    caption := if shown then RemoveHeartLabel else AddHeartLabel;
  }
}
