/** The event names the skill dialog recognises (`SkillDialog.Events`). */
module Events {
  const SkillBeginEventName: string := "skillBegin"
  const TokenRequestEventName: string := "tokens/request"
  /** Declared by the dialog but never consulted by it. */
  const TokenResponseEventName: string := "tokens/response"
}

/** The loop of `ForwardToSkill` that walks the skill's response activities:
    end-of-conversation activities raise the termination flag, token requests
    are swallowed, and everything else (traces included) is forwarded. */
module ResponseClassifier {
  import opened Schema
  import Events

  /** What one pass over the responses produces. */
  datatype Classification = Classification(ended: bool, forwarded: seq<Activity>)

  /** The first test of the loop: the activity's type is end-of-conversation. */
  predicate IsEndOfConversation(a: Activity) {
    a.activityType == Some(EndOfConversationType)
  }

  /** The second test of the loop: the activity is named "tokens/request". */
  predicate IsTokenRequest(a: Activity) {
    a.name == Some(Events.TokenRequestEventName)
  }

  /** An activity that neither test catches, so it is passed on. */
  predicate Forwardable(a: Activity) {
    !IsEndOfConversation(a) && !IsTokenRequest(a)
  }

  /** Some response, at any position, ends the skill conversation. */
  predicate HasEndOfConversation(rs: seq<Activity>) {
    exists i :: 0 <= i < |rs| && IsEndOfConversation(rs[i])
  }

  /** One iteration of the loop body; the type test comes before the name test. */
  function Step(c: Classification, a: Activity): (c': Classification) {
    if IsEndOfConversation(a) then c.(ended := true)
    else if IsTokenRequest(a) then c
    else c.(forwarded := c.forwarded + [a])
  }

  /** The loop run over all of `rs`, in order, starting from a clear flag and
      an empty list (a left fold of `Step`). */
  function Classify(rs: seq<Activity>): (c: Classification)
    ensures c.ended <==> HasEndOfConversation(rs)
    ensures |c.forwarded| <= |rs|
    ensures forall k :: 0 <= k < |c.forwarded| ==> Forwardable(c.forwarded[k]) && c.forwarded[k] in rs
  {
    if |rs| == 0 then Classification(false, [])
    else
      var prefix := rs[..|rs| - 1];
      assert forall i :: 0 <= i < |prefix| ==> prefix[i] == rs[i];
      Step(Classify(prefix), rs[|rs| - 1])
  }

  /** Positions of the forwardable responses, in increasing order: the
      reference against which the forwarded list is judged. */
  function KeptIndices(rs: seq<Activity>): (idx: seq<nat>)
    ensures forall k :: 0 <= k < |idx| ==> idx[k] < |rs| && Forwardable(rs[idx[k]])
    ensures forall k, l :: 0 <= k < l < |idx| ==> idx[k] < idx[l]
    ensures forall i :: 0 <= i < |rs| && Forwardable(rs[i]) ==> i in idx
  {
    if |rs| == 0 then []
    else
      var prefix := rs[..|rs| - 1];
      assert forall i :: 0 <= i < |prefix| ==> prefix[i] == rs[i];
      KeptIndices(prefix) + (if Forwardable(rs[|rs| - 1]) then [|rs| - 1] else [])
  }

  /** The forwarded list is exactly the forwardable responses, each unchanged,
      in their original relative order and without repetition: its k-th entry
      is the response at the k-th kept position. */
  lemma {:induction false} ClassifySelectsKeptIndices(rs: seq<Activity>)
    ensures |Classify(rs).forwarded| == |KeptIndices(rs)|
    ensures forall k :: 0 <= k < |KeptIndices(rs)| ==> Classify(rs).forwarded[k] == rs[KeptIndices(rs)[k]]
  {
    if |rs| > 0 {
      var prefix, last := rs[..|rs| - 1], rs[|rs| - 1];
      ClassifySelectsKeptIndices(prefix);
      var f, idx := Classify(prefix).forwarded, KeptIndices(prefix);
      assert Classify(rs) == Step(Classify(prefix), last);
      assert KeptIndices(rs) == idx + (if Forwardable(last) then [|rs| - 1] else []);
      forall k | 0 <= k < |idx|
        ensures f[k] == rs[idx[k]]
      {
        assert f[k] == prefix[idx[k]];
      }
    }
  }

  /** The check order, response by response: an end-of-conversation activity
      always sets the flag and is never forwarded, even when it is also named
      "tokens/request"; a token request of any other type is dropped without
      touching the flag; every other activity, traces included, is forwarded. */
  lemma ClassifyCheckOrder(rs: seq<Activity>, i: int)
    requires 0 <= i < |rs|
    ensures IsEndOfConversation(rs[i]) ==> Classify(rs).ended && rs[i] !in Classify(rs).forwarded
    ensures IsTokenRequest(rs[i]) ==> rs[i] !in Classify(rs).forwarded
    ensures Forwardable(rs[i]) ==> rs[i] in Classify(rs).forwarded
    ensures (forall j :: 0 <= j < |rs| ==> !IsEndOfConversation(rs[j])) ==> !Classify(rs).ended
  {
    if Forwardable(rs[i]) {
      ClassifySelectsKeptIndices(rs);
      var idx := KeptIndices(rs);
      var k :| 0 <= k < |idx| && idx[k] == i;
      assert Classify(rs).forwarded[k] == rs[i];
    }
  }

  /** Classifying a batch in two pieces gives the same flag and forwarded list
      as classifying it whole: the loop carries no state but its two outputs. */
  lemma {:induction false} ClassifyConcat(a: seq<Activity>, b: seq<Activity>)
    ensures Classify(a + b).ended == (Classify(a).ended || Classify(b).ended)
    ensures Classify(a + b).forwarded == Classify(a).forwarded + Classify(b).forwarded
  {
    if |b| == 0 {
      assert a + b == a;
    } else {
      var b' := b[..|b| - 1];
      ClassifyConcat(a, b');
      assert (a + b)[..|a + b| - 1] == a + b';
      assert (a + b)[|a + b| - 1] == b[|b| - 1];
    }
  }

  /** A batch made only of forwardable activities passes through untouched. */
  lemma {:induction false} ClassifyForwardableOnly(rs: seq<Activity>)
    requires forall k :: 0 <= k < |rs| ==> Forwardable(rs[k])
    ensures Classify(rs) == Classification(false, rs)
  {
    if |rs| > 0 {
      var prefix, last := rs[..|rs| - 1], rs[|rs| - 1];
      ClassifyForwardableOnly(prefix);
      assert Classify(rs) == Step(Classify(prefix), last);
      assert prefix + [last] == rs;
    }
  }

  /** Classification is idempotent on its output: the forwarded list holds no
      control activity, so classifying it again drops nothing and ends nothing. */
  lemma ReclassifyForwarded(rs: seq<Activity>)
    ensures Classify(Classify(rs).forwarded) == Classification(false, Classify(rs).forwarded)
  {
    ClassifyForwardableOnly(Classify(rs).forwarded);
  }

  /** The loop as the dialog runs it, over a response list. */
  method ClassifyResponses(rs: seq<Activity>) returns (endOfConversation: bool, filtered: seq<Activity>)
    ensures endOfConversation <==> HasEndOfConversation(rs)
    ensures Classification(endOfConversation, filtered) == Classify(rs)
  {
    endOfConversation := false;
    filtered := [];
    var i := 0;
    while i < |rs|
      invariant 0 <= i <= |rs|
      invariant Classification(endOfConversation, filtered) == Classify(rs[..i])
    {
      var skillResponse := rs[i];
      assert rs[..i + 1][..i] == rs[..i];
      if IsEndOfConversation(skillResponse) {
        endOfConversation := true;
      } else if IsTokenRequest(skillResponse) {
        // token requests are swallowed
      } else {
        filtered := filtered + [skillResponse];
      }
      i := i + 1;
    }
    assert rs[..|rs|] == rs;
  }
}
