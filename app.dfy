/** The session logic of the `App` component (src/App.jsx): the detected
    emotion, the voice-confidence scorer's closure state, the `activated`
    latch and the comfort-kit trigger, with the camera, the speech engine and
    React's rendering replaced by explicit events. */
module App {
  import opened Text
  import opened Emotion
  import opened Confidence
  import opened ComfortKit

  /** The trigger's condition: `emotion === "sad" || confidence.includes("Low")`. */
  predicate Qualifies(emotion: string, confidence: string) {
    emotion == "sad" || Includes(confidence, "Low")
  }

  /** A sad face always qualifies; a label without "Low", such as every label the
      scorer sets, qualifies only together with a sad face. */
  lemma QualifiesOnlySad(emotion: string, confidence: string)
    ensures emotion == "sad" ==> Qualifies(emotion, confidence)
    ensures !Includes(confidence, "Low") ==> (Qualifies(emotion, confidence) <==> emotion == "sad")
    ensures forall p: nat, segments, elapsedMs ::
      Qualifies(emotion, ResultText(p, segments, elapsedMs)) <==> emotion == "sad"
  {
  }

  /** The trigger effect dispatches when its condition holds and the latch is open. */
  predicate Fires(activated: bool, qualifies: bool) {
    qualifies && !activated
  }

  /** How many times a run of trigger evaluations fires, given whether each one
      found its condition true and no submit re-arms the latch in between. */
  function FireCount(activated: bool, outcomes: seq<bool>): nat
    decreases |outcomes|
  {
    if outcomes == [] then 0
    else (if Fires(activated, outcomes[0]) then 1 else 0) + FireCount(activated || outcomes[0], outcomes[1..])
  }

  /** The latch fires at most once between re-arms, never when already set, and
      exactly once from an open latch as soon as some evaluation qualifies. */
  lemma {:induction false} FiresAtMostOnce(activated: bool, outcomes: seq<bool>)
    ensures FireCount(activated, outcomes) <= 1
    ensures activated ==> FireCount(activated, outcomes) == 0
    ensures !activated ==> (FireCount(activated, outcomes) == 1 <==> true in outcomes)
    decreases |outcomes|
  {
    if outcomes != [] {
      FiresAtMostOnce(activated || outcomes[0], outcomes[1..]);
      if !activated && !outcomes[0] {
        assert true in outcomes <==> true in outcomes[1..];
      }
    }
  }

  class Session {
    var form: Form
    /** `preview`: the detection page is shown (the video element is mounted). */
    var preview: bool
    var emotion: string
    var confidence: string
    var activated: bool
    /** Whether the browser offers a SpeechRecognition constructor. */
    const speechSupported: bool
    /** A recognition started by the `[preview]` effect is running. */
    var listening: bool
    // The `onresult` closure's state, fresh for every recognition.
    var pauseCount: nat
    var lastTimestamp: int
    var startTime: int
    /** How many times the kit has been dispatched since the last submit. */
    ghost var fires: nat

    /** After every event the trigger has settled: a qualifying state has the latch
        set, and the kit has been dispatched at most once since the last submit,
        only with the latch set. The scorer's text never includes "Low", and only
        a shown detection page with speech support listens. */
    ghost predicate Valid()
      reads this
    {
      && (Qualifies(emotion, confidence) ==> activated)
      && fires <= 1 && (fires == 1 ==> activated)
      && !Includes(confidence, "Low")
      && (listening ==> preview && speechSupported)
    }

    /** The initial state; the trigger's first run finds neither "sad" nor "Low". */
    constructor (speechSupported: bool)
      ensures Valid()
      ensures this.speechSupported == speechSupported
      ensures form == EmptyForm && !preview && emotion == "neutral" && confidence == Analyzing
      ensures !activated && !listening && fires == 0
    {
      form := EmptyForm;
      preview := false;
      emotion := "neutral";
      confidence := Analyzing;
      activated := false;
      this.speechSupported := speechSupported;
      listening := false;
      pauseCount := 0;
      lastTimestamp := 0;
      startTime := 0;
      fires := 0;
      AnalyzingNotLow();
    }

    /** The comfort-kit trigger effect: check the condition and the latch, set the
        latch and dispatch, as one step. */
    method Trigger() returns (effects: seq<Effect>)
      modifies this`activated, this`fires
      ensures activated == (old(activated) || Qualifies(emotion, confidence))
      ensures effects == if Fires(old(activated), Qualifies(emotion, confidence)) then Dispatch(form) else []
      ensures fires == old(fires) + if Fires(old(activated), Qualifies(emotion, confidence)) then 1 else 0
    {
      var lowConfidence := Includes(confidence, "Low");
      if (emotion == "sad" || lowConfidence) && !activated {
        activated := true;
        fires := fires + 1;
        effects := Dispatch(form);
      } else {
        effects := [];
      }
    }

    /** `handleChange(field, value)`. The trigger re-runs since `form` changed, but the
        settled state cannot fire. */
    method HandleChange(field: Field, value: string) returns (effects: seq<Effect>)
      requires Valid()
      modifies this
      ensures Valid()
      ensures form == WithField(old(form), field, value)
      ensures effects == []
      ensures preview == old(preview) && emotion == old(emotion) && confidence == old(confidence)
      ensures activated == old(activated) && listening == old(listening) && fires == old(fires)
      ensures pauseCount == old(pauseCount) && lastTimestamp == old(lastTimestamp) && startTime == old(startTime)
    {
      form := WithField(form, field, value);
      effects := Trigger();
    }

    /** One tick of the detection interval. It reads the video element, mounted only
        while the detection page shows; then the trigger runs on the new emotion. */
    method OnDetection(detection: Detection) returns (effects: seq<Effect>)
      requires Valid()
      modifies this
      ensures Valid()
      ensures emotion == if old(preview) then NextEmotion(old(emotion), detection) else old(emotion)
      ensures activated == (old(activated) || emotion == "sad")
      ensures effects == if Fires(old(activated), emotion == "sad") then Dispatch(form) else []
      ensures fires == old(fires) + if Fires(old(activated), emotion == "sad") then 1 else 0
      ensures form == old(form) && preview == old(preview) && confidence == old(confidence)
      ensures listening == old(listening)
      ensures pauseCount == old(pauseCount) && lastTimestamp == old(lastTimestamp) && startTime == old(startTime)
    {
      if preview {
        emotion := NextEmotion(emotion, detection);
      }
      effects := Trigger();
    }

    /** The scorer's part of `recognition.onresult` at time `now` (milliseconds), with
        the transcripts of all results so far: a gap of more than two seconds since
        the previous result is a pause; then the time is recorded and the label set. */
    method ScoreResult(segments: seq<string>, now: int)
      modifies this`pauseCount, this`lastTimestamp, this`confidence
      ensures pauseCount == old(pauseCount) + (if now - old(lastTimestamp) > 2000 then 1 else 0)
      ensures lastTimestamp == now
      ensures confidence == ResultText(pauseCount, segments, now - startTime)
    {
      var gapMs := now - lastTimestamp;
      var pauses := if gapMs > 2000 then pauseCount + 1 else pauseCount;
      var text := ResultText(pauses, segments, now - startTime);
      pauseCount, lastTimestamp, confidence := pauses, now, text;
    }

    /** `recognition.onresult`, which only runs while a recognition does. The new text
        never includes "Low", so the trigger that follows finds nothing to fire. */
    method OnSpeechResult(segments: seq<string>, now: int) returns (effects: seq<Effect>)
      requires Valid()
      modifies this
      ensures Valid()
      ensures old(listening) ==>
        && pauseCount == old(pauseCount) + (if now - old(lastTimestamp) > 2000 then 1 else 0)
        && lastTimestamp == now
        && confidence == ResultText(pauseCount, segments, now - startTime)
      ensures !old(listening) ==>
        pauseCount == old(pauseCount) && lastTimestamp == old(lastTimestamp) && confidence == old(confidence)
      ensures effects == [] && activated == old(activated) && fires == old(fires)
      ensures form == old(form) && preview == old(preview) && emotion == old(emotion)
      ensures listening == old(listening) && startTime == old(startTime)
    {
      ghost var before := confidence;
      if listening {
        ScoreResult(segments, now);
      }
      QualifiesOnlySad(emotion, before);
      QualifiesOnlySad(emotion, confidence);
      effects := Trigger();
    }

    /** `handleSubmit` at time `now`: show the detection page and re-arm the latch.
        Showing the page starts a fresh recognition when speech is supported. The
        trigger then runs at once, so a face that is still "sad" fires again. */
    method HandleSubmit(now: int) returns (effects: seq<Effect>)
      requires Valid()
      modifies this
      ensures Valid()
      ensures preview
      ensures activated == (emotion == "sad")
      ensures effects == if emotion == "sad" then Dispatch(form) else []
      ensures fires == if emotion == "sad" then 1 else 0
      ensures !old(preview) ==> listening == speechSupported
      ensures !old(preview) && speechSupported ==> pauseCount == 0 && lastTimestamp == now && startTime == now
      ensures old(preview) ==>
        (listening == old(listening) && pauseCount == old(pauseCount)
         && lastTimestamp == old(lastTimestamp) && startTime == old(startTime))
      ensures form == old(form) && emotion == old(emotion) && confidence == old(confidence)
    {
      if !preview && speechSupported {
        listening := true;
        pauseCount := 0;
        lastTimestamp := now;
        startTime := now;
      }
      preview := true;
      activated := false;
      fires := 0;
      effects := Trigger();
    }

    /** The "Edit Again" button: back to the form, which stops the recognition. The
        latch keeps its value; only a submit re-arms it. */
    method EditAgain()
      requires Valid()
      modifies this`preview, this`listening
      ensures Valid()
      ensures !preview && !listening
      ensures activated == old(activated) && form == old(form)
      ensures emotion == old(emotion) && confidence == old(confidence)
    {
      preview := false;
      listening := false;
    }
  }

  /** A session in which a sad face fires the kit once, later detections do
      not, and a submit after "Edit Again" fires it again while the face stays sad. */
  method SadFaceScenario() {
    var session := new Session(true);
    var effects := session.HandleChange(Anchor, "my cat");
    assert effects == [];
    effects := session.HandleSubmit(1000);
    assert effects == [];
    var sad := [Expression("neutral", 0.25), Expression("happy", 0.1), Expression("sad", 0.6)];
    assert BestIndex(sad) == 2;
    effects := session.OnDetection(Face(sad));
    assert effects == [AnchorReminder("my cat")];
    effects := session.OnDetection(Face(sad));
    assert effects == [];
    effects := session.OnSpeechResult(["hello there"], 4000);
    assert effects == [];
    session.EditAgain();
    assert session.activated;
    effects := session.HandleSubmit(9000);
    assert effects == [AnchorReminder("my cat")];
  }
}
