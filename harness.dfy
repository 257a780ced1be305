/**
 * The offline evaluation harness: classify each labelled case and count the
 * cases whose verdict differs from the label.
 */
module Harness {
  import opened Wrappers
  import opened Classifier

  datatype TestCase = TestCase(content: string, expectedResult: bool)

  /** Whether the classifier agrees with the label of `tc`. */
  predicate Passes(tc: TestCase,
                   llm: string -> Result<ChatResponse, LlmError>,
                   parse: string -> Option<Evaluation>)
  {
    EvaluateMessage(tc.content, llm, parse) == tc.expectedResult
  }

  /** The number of cases the classifier gets wrong. */
  function Mispredictions(cases: seq<TestCase>,
                          llm: string -> Result<ChatResponse, LlmError>,
                          parse: string -> Option<Evaluation>): (n: nat)
    ensures n <= |cases|
  {
    if cases == [] then 0
    else
      Mispredictions(cases[..|cases| - 1], llm, parse)
      + (if Passes(cases[|cases| - 1], llm, parse) then 0 else 1)
  }

  /** The harness passes, with no mispredictions, exactly when every case passes. */
  lemma {:induction false} NoMispredictionsIffAllPass(cases: seq<TestCase>,
                                                      llm: string -> Result<ChatResponse, LlmError>,
                                                      parse: string -> Option<Evaluation>)
    ensures Mispredictions(cases, llm, parse) == 0 <==>
            forall i :: 0 <= i < |cases| ==> Passes(cases[i], llm, parse)
  {
    if cases != [] {
      var init := cases[..|cases| - 1];
      NoMispredictionsIffAllPass(init, llm, parse);
      assert forall i :: 0 <= i < |init| ==> init[i] == cases[i];
    }
  }

  /** Mispredictions of a concatenation add up. */
  lemma {:induction false} MispredictionsAppend(a: seq<TestCase>, b: seq<TestCase>,
                                                llm: string -> Result<ChatResponse, LlmError>,
                                                parse: string -> Option<Evaluation>)
    ensures Mispredictions(a + b, llm, parse) == Mispredictions(a, llm, parse) + Mispredictions(b, llm, parse)
  {
    if b == [] {
      assert a + b == a;
    } else {
      assert (a + b)[..|a + b| - 1] == a + b[..|b| - 1];
      MispredictionsAppend(a, b[..|b| - 1], llm, parse);
    }
  }

  /**
   * Runs every case once and reports the number of mispredictions, the number
   * of cases passed, and whether the run passes (no mispredictions).
   */
  method RunTests(cases: seq<TestCase>,
                  llm: string -> Result<ChatResponse, LlmError>,
                  parse: string -> Option<Evaluation>)
    returns (mispredictions: nat, passed: nat, ok: bool)
    ensures mispredictions == Mispredictions(cases, llm, parse)
    ensures passed == |cases| - mispredictions
    ensures ok <==> forall i :: 0 <= i < |cases| ==> Passes(cases[i], llm, parse)
  {
    mispredictions := 0;
    for i := 0 to |cases|
      invariant mispredictions == Mispredictions(cases[..i], llm, parse)
    {
      var result := EvaluateMessage(cases[i].content, llm, parse);
      if cases[i].expectedResult != result {
        mispredictions := mispredictions + 1;
      }
      assert cases[..i + 1] == cases[..i] + [cases[i]];
      MispredictionsAppend(cases[..i], [cases[i]], llm, parse);
    }
    assert cases[..|cases|] == cases;
    passed := |cases| - mispredictions;
    NoMispredictionsIffAllPass(cases, llm, parse);
    ok := mispredictions == 0;
  }
}
