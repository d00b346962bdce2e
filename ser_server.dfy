/**
 * The speech-emotion-recognition endpoint `/ser`: the uploaded clip is brought
 * to 16 kHz, classified, and the first highest-scoring emotion label is answered.
 */
module SerServer {

  const TARGET_RATE: int := 16000

  /** Decoded audio samples; resampling is recorded, not computed. */
  datatype Samples = Decoded(id: nat) | Resampled(source: Samples, fromRate: int, toRate: int)

  /** One entry of the classifier's output list. */
  datatype Scored = Scored(emotion: string, score: real)

  /** The response dict `{"emotion", "confidence", "raw"}`. */
  datatype SerResponse = SerResponse(emotion: string, confidence: real, raw: seq<Scored>)

  /** The handler either answers, or `max` raised on an empty list and the framework answers 500. */
  datatype SerReply = Served(response: SerResponse) | InternalError

  /** The classifier, as the list it returns for samples at a given rate. */
  type Classifier = (Samples, int) -> seq<Scored>

  /** The resample-or-not decision: only a clip not already at 16 kHz is resampled. */
  function Normalise(audio: Samples, sr: int): (r: (Samples, int))
    ensures r.1 == TARGET_RATE
    ensures r.0 == audio <==> sr == TARGET_RATE
    ensures sr != TARGET_RATE ==> r.0 == Resampled(audio, sr, TARGET_RATE)
  {
    if sr != TARGET_RATE then
      ResampledIsNew(audio, sr, TARGET_RATE);
      (Resampled(audio, sr, TARGET_RATE), TARGET_RATE)
    else
      (audio, sr)
  }

  lemma {:induction false} ResampledIsNew(audio: Samples, fromRate: int, toRate: int)
    ensures Resampled(audio, fromRate, toRate) != audio
  {
    if audio.Resampled? {
      ResampledIsNew(audio.source, fromRate, toRate);
    }
  }

  /**
   * `max(results, key=score)`: Python's `max` scans left to right and replaces its
   * candidate only on a strictly greater key, so the first maximal entry wins.
   */
  function TopIndex(results: seq<Scored>): (k: nat)
    requires |results| > 0
    ensures k < |results|
    ensures forall j :: 0 <= j < |results| ==> results[j].score <= results[k].score
    ensures forall j :: 0 <= j < k ==> results[j].score < results[k].score
    decreases |results|
  {
    if |results| == 1 then 0
    else
      var k := TopIndex(results[..|results| - 1]);
      if results[|results| - 1].score > results[k].score then |results| - 1 else k
  }

  /** `ser(file)` on the decoded clip `audio` sampled at `sr`. */
  function Ser(audio: Samples, sr: int, classify: Classifier): (r: SerReply)
    ensures var results := classify(Normalise(audio, sr).0, TARGET_RATE);
      (r.InternalError? <==> results == []) &&
      (r.Served? ==>
        r.response.raw == results &&
        Scored(r.response.emotion, r.response.confidence) == results[TopIndex(results)])
  {
    var (samples, rate) := Normalise(audio, sr);
    var results := classify(samples, rate);
    if results == [] then InternalError
    else
      var top := results[TopIndex(results)];
      Served(SerResponse(top.emotion, top.score, results))
  }

  /** The answered emotion is a highest score of the list, and no earlier entry reaches it. */
  lemma SerAnswersFirstMaximum(audio: Samples, sr: int, classify: Classifier)
    requires Ser(audio, sr, classify).Served?
    ensures var resp := Ser(audio, sr, classify).response;
      exists k :: 0 <= k < |resp.raw| && resp.raw[k] == Scored(resp.emotion, resp.confidence) &&
        (forall j :: 0 <= j < |resp.raw| ==> resp.raw[j].score <= resp.confidence) &&
        (forall j :: 0 <= j < k ==> resp.raw[j].score < resp.confidence)
  {
    var resp := Ser(audio, sr, classify).response;
    var k := TopIndex(resp.raw);
    assert resp.raw[k] == Scored(resp.emotion, resp.confidence);
  }
}
