/**
 What the service functions do with the model's reply once it has been
 decoded (services/geminiService.ts): every structured step rejects a reply
 that does not decode, with a step-specific message, and otherwise passes
 the decoded value through unchecked; the video-script step alone also
 checks that every script carries a `shots` array. The decoding itself is
 not modelled: a reply is either a decoded value or nothing.
 */
module Responses {
  import opened Types

  /** A decoded reply. */
  datatype Json =
    | JNull
    | JBool(b: bool)
    | JNumber(n: int)
    | JString(s: string)
    | JArray(items: seq<Json>)
    | JObject(fields: map<string, Json>)

  /** The structured generation steps of the service. */
  datatype Step = Styles | Ideas | FullConcepts | HooksAndCtas | ImagePrompts | VideoScripts | AbTests

  /** The message each step throws when the reply is unusable. */
  function InvalidResponseMessage(step: Step): (r: string)
    ensures |r| > 0
  {
    var lead := "The AI returned an invalid response for ";
    match step
    case Styles => lead + "advert styles."
    case Ideas => lead + "concept ideas."
    case FullConcepts => lead + "the full concepts."
    case HooksAndCtas => lead + "hooks and CTAs."
    case ImagePrompts => lead + "image prompts."
    case VideoScripts => lead + "video scripts."
    case AbTests => lead + "A/B test variations."
  }

  /** The messages tell the steps apart. */
  lemma InvalidResponseMessagesDistinct(a: Step, b: Step)
    ensures InvalidResponseMessage(a) == InvalidResponseMessage(b) ==> a == b
  {
    var n := |"The AI returned an invalid response for "|;
    if InvalidResponseMessage(a) == InvalidResponseMessage(b) {
      assert InvalidResponseMessage(a)[n..] == InvalidResponseMessage(b)[n..];
      assert |InvalidResponseMessage(a)| == |InvalidResponseMessage(b)|;
      assert InvalidResponseMessage(a)[n] == InvalidResponseMessage(b)[n];
      assert InvalidResponseMessage(a)[n + 1] == InvalidResponseMessage(b)[n + 1];
    }
  }

  /** `script.shots` is an array: the script is an object whose `shots` entry is one. */
  predicate HasShotsArray(script: Json)
  {
    script.JObject? && "shots" in script.fields && script.fields["shots"].JArray?
  }

  /**
   The shape check of the video-script step: the reply must be an array
   (`.some` is only defined on arrays) and no element may lack a shots array.
   */
  function ValidVideoScripts(reply: Json): (r: bool)
    ensures r <==> reply.JArray? && forall i :: 0 <= i < |reply.items| ==> HasShotsArray(reply.items[i])
  {
    reply.JArray? && AllHaveShots(reply.items)
  }

  /** Every script of the list has a shots array, checked front to back. */
  function AllHaveShots(scripts: seq<Json>): (r: bool)
    ensures r <==> forall i :: 0 <= i < |scripts| ==> HasShotsArray(scripts[i])
  {
    if |scripts| == 0 then true
    else HasShotsArray(scripts[0]) && AllHaveShots(scripts[1..])
  }

  /**
   The service's reply handling: a reply that did not decode throws the
   step's message; a decoded video-script reply of the wrong shape throws the
   same message; any other decoded reply is returned as it is.
   */
  function ParseResponse(step: Step, decoded: Option<Json>): (r: Outcome<Json>)
    ensures decoded.None? ==> r == Failure(Thrown(InvalidResponseMessage(step)))
    ensures r.Success? ==> decoded == Some(r.value)
    ensures r.Failure? ==> r.cause == Thrown(InvalidResponseMessage(step))
    ensures decoded.Some? && step != VideoScripts ==> r == Success(decoded.value)
    ensures decoded.Some? && step == VideoScripts ==> (r.Success? <==> ValidVideoScripts(decoded.value))
  {
    match decoded
    case None => Failure(Thrown(InvalidResponseMessage(step)))
    case Some(v) =>
      if step == VideoScripts && !ValidVideoScripts(v) then Failure(Thrown(InvalidResponseMessage(step)))
      else Success(v)
  }

  /** An empty list of scripts passes the shape check: nothing requires two scripts. */
  lemma EmptyScriptListAccepted()
    ensures ParseResponse(VideoScripts, Some(JArray([]))) == Success(JArray([]))
  {
  }

  /** One script without a shots array anywhere in the list makes the whole reply fail. */
  lemma OneBadScriptRejectsAll(good: seq<Json>, bad: Json, rest: seq<Json>)
    requires !HasShotsArray(bad)
    ensures ParseResponse(VideoScripts, Some(JArray(good + [bad] + rest))).Failure?
  {
    assert (good + [bad] + rest)[|good|] == bad;
  }

  /** Acceptance of a list of scripts is decided element by element: a concatenation passes iff both halves do. */
  lemma {:induction false} AllHaveShotsAppend(xs: seq<Json>, ys: seq<Json>)
    ensures AllHaveShots(xs + ys) <==> AllHaveShots(xs) && AllHaveShots(ys)
    decreases |xs|
  {
    if |xs| > 0 {
      assert (xs + ys)[1..] == xs[1..] + ys;
      AllHaveShotsAppend(xs[1..], ys);
    } else {
      assert xs + ys == ys;
    }
  }

  /** A non-array reply is never accepted for video scripts, and any decoded reply is for the other steps. */
  lemma ShapeCheckOnlyForScripts(step: Step, v: Json)
    ensures !v.JArray? ==> ParseResponse(VideoScripts, Some(v)).Failure?
    ensures step != VideoScripts ==> ParseResponse(step, Some(v)).Success?
  {
  }
}
