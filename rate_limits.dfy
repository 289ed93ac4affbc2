/**
 * The test `_process_chunk_summary` applies to the text of a failed request,
 * and the proof that the two texts `_make_request_with_fallback` raises never
 * pass it.
 */
module RateLimits {
  import opened Text
  import opened LoadBalancer
  import opened Requests

  /** "rate limit" in the lower-cased message, or "429" anywhere in it. */
  predicate RateLimited(message: string) {
    Contains(Lower(message), "rate limit") || Contains(message, "429")
  }

  /** A text in which neither "rate limit" (in any case) nor "429" can begin. */
  predicate NoRateLimitChars(s: string) {
    forall i :: 0 <= i < |s| ==> s[i] != 'r' && s[i] != 'R' && s[i] != '4'
  }

  lemma NoRateLimitCharsAppend(a: string, b: string)
    requires NoRateLimitChars(a) && NoRateLimitChars(b)
    ensures NoRateLimitChars(a + b)
  {
    forall i | 0 <= i < |a + b| ensures (a + b)[i] != 'r' && (a + b)[i] != 'R' && (a + b)[i] != '4' {
      if i < |a| {
        assert (a + b)[i] == a[i];
      } else {
        assert (a + b)[i] == b[i - |a|];
      }
    }
  }

  /** Lowering never produces an `r` out of anything but `r` or `R`. */
  lemma LowerR(s: string, i: int)
    ensures 0 <= i < |s| && Lower(s)[i] == 'r' ==> s[i] == 'r' || s[i] == 'R'
  {
  }

  /** The characters of an occurrence are those of the string at its offset. */
  lemma OccurrenceAt(s: string, sub: string, i: int, k: int)
    ensures 0 <= i && i + |sub| <= |s| && 0 <= k < |sub| ==> s[i..i + |sub|][k] == s[i + k]
  {
  }

  /**
   * A message with a single `r` not followed by an `a` is not rate limited:
   * "rate limit" needs its `r` and then an `a`, and "429" its `4`.
   */
  lemma OneRNotRateLimited(a: string, b: string)
    requires NoRateLimitChars(a) && NoRateLimitChars(b)
    requires b == [] || (b[0] != 'a' && b[0] != 'A')
    ensures !RateLimited(a + "r" + b)
  {
    var m := a + "r" + b;
    var low := Lower(m);
    var sub := "rate limit";
    forall i: nat | OccursAt(low, sub, i) ensures false {
      OccurrenceAt(low, sub, i, 0);
      OccurrenceAt(low, sub, i, 1);
      LowerR(m, i);
    }
    forall i: nat | OccursAt(m, "429", i) ensures false {
      OccurrenceAt(m, "429", i, 0);
    }
  }

  /** A message without `r`, `R` or `4` is not rate limited. */
  lemma NoRNotRateLimited(m: string)
    requires NoRateLimitChars(m)
    ensures !RateLimited(m)
  {
    var low := Lower(m);
    var sub := "rate limit";
    forall i: nat | OccursAt(low, sub, i) ensures false {
      OccurrenceAt(low, sub, i, 0);
      LowerR(m, i);
    }
    forall i: nat | OccursAt(m, "429", i) ensures false {
      OccurrenceAt(m, "429", i, 0);
    }
  }

  /** `f"No API keys available: {e}"` with the text of the selection error. */
  lemma NoKeysErrorNotRateLimited()
    ensures !RateLimited(ErrorMessage(NoApiKeys))
  {
    assert NoRateLimitChars(NoKeysMessage);
    assert NoRateLimitChars(": ");
    NoRateLimitCharsAppend(NoKeysMessage, ": ");
    NoRateLimitCharsAppend(NoKeysMessage + ": ", NoKeysMessage);
    NoRNotRateLimited(ErrorMessage(NoApiKeys));
  }

  /** `f"All API keys and models failed after {max_retries} attempts"`: its one `r` is followed by a blank. */
  lemma ExhaustedErrorNotRateLimited()
    ensures !RateLimited(ErrorMessage(AllAttemptsFailed))
  {
    var a, b := "All API keys and models failed afte", " 2 attempts";
    assert NatToString(MaxRetries) == "2";
    assert ErrorMessage(AllAttemptsFailed) == a + "r" + b;
    assert NoRateLimitChars(a);
    assert NoRateLimitChars(b);
    OneRNotRateLimited(a, b);
  }

  /** The two messages `_make_request_with_fallback` raises mention neither a rate limit nor status 429. */
  lemma RequestErrorsAreNotRateLimits(e: RequestError)
    ensures !RateLimited(ErrorMessage(e))
  {
    match e
    case NoApiKeys => NoKeysErrorNotRateLimited();
    case AllAttemptsFailed => ExhaustedErrorNotRateLimited();
  }
}
