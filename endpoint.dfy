/** The two pieces of chatbots/cmd/main.go that belong to the bot's configuration rather
  * than to its process plumbing: the scheme normalisation of the object-storage endpoint
  * flag and the timings of the leader-election lease. */
module Endpoint {
  import Text

  const HttpScheme := "http://"
  const HttpsScheme := "https://"

  /** The endpoint names its scheme, tested as `strings.HasPrefix` does: case-sensitively. */
  predicate HasScheme(endpoint: string) {
    Text.HasPrefix(endpoint, HttpScheme) || Text.HasPrefix(endpoint, HttpsScheme)
  }

  /** The rewrite `main` applies to `Endpoint` before building the hook configuration. The
    * result always names a scheme, and the flag's value is its suffix: at most the eight
    * characters of "https://" are put in front of it. */
  function Normalize(endpoint: string): (r: string)
    ensures HasScheme(r)
    ensures |r| - |endpoint| in {0, |HttpsScheme|} && r[|r| - |endpoint|..] == endpoint
  {
    if !Text.HasPrefix(endpoint, HttpScheme) && !Text.HasPrefix(endpoint, HttpsScheme) then
      HttpsScheme + endpoint
    else
      endpoint
  }

  /** An endpoint that already names "http://" or "https://" is left as it is, and one that
    * does not gets exactly "https://" in front. */
  lemma NormalizeCases(endpoint: string)
    ensures HasScheme(endpoint) ==> Normalize(endpoint) == endpoint
    ensures !HasScheme(endpoint) ==> Normalize(endpoint) == HttpsScheme + endpoint
    ensures Normalize(endpoint) == endpoint <==> HasScheme(endpoint)
  {
    if !HasScheme(endpoint) {
      assert |Normalize(endpoint)| == |endpoint| + |HttpsScheme|;
    }
  }

  /** Normalising twice is normalising once. */
  lemma NormalizeIdempotent(endpoint: string)
    ensures Normalize(Normalize(endpoint)) == Normalize(endpoint)
  {
    NormalizeCases(Normalize(endpoint));
  }

  /** An upper-case scheme is not recognised, so it gets a second scheme in front of it. */
  lemma UpperCaseSchemeNotRecognised(endpoint: string)
    requires endpoint == "HTTP://x"
    ensures Normalize(endpoint) == "https://HTTP://x"
  {
    assert endpoint[..|HttpScheme|] != HttpScheme by {
      assert endpoint[0] == 'H' && HttpScheme[0] == 'h';
    }
    assert !Text.HasPrefix(endpoint, HttpsScheme) by {
      assert |HttpsScheme| <= |endpoint| ==> endpoint[..|HttpsScheme|][0] != HttpsScheme[0];
    }
  }

  /** A bare host name, as `-endpoint` is often given, is reached over https. */
  lemma BareHostGetsHttps(endpoint: string)
    requires endpoint == "s3.amazonaws.com"
    ensures Normalize(endpoint) == "https://s3.amazonaws.com"
  {
    assert endpoint[..|HttpScheme|] != HttpScheme by {
      assert endpoint[0] == 's' && HttpScheme[0] == 'h';
    }
    assert !Text.HasPrefix(endpoint, HttpsScheme) by {
      assert |HttpsScheme| <= |endpoint| ==> endpoint[..|HttpsScheme|][0] != HttpsScheme[0];
    }
    NormalizeCases(endpoint);
  }

  /** The leader-election lease, in seconds. */
  datatype LeaseTimings = LeaseTimings(leaseDuration: nat, renewDeadline: nat, retryPeriod: nat)

  /** The timings `main` passes to `leaderelection.RunOrDie`. */
  const Lease := LeaseTimings(60, 15, 5)

  /** What client-go's leader elector demands of its timings: a lease outlives the deadline
    * for renewing it, and that deadline outlives a retry period stretched by the jitter
    * factor 1.2 (written over integers as 5 * deadline > 6 * period). */
  predicate Sound(t: LeaseTimings) {
    t.leaseDuration > t.renewDeadline && 5 * t.renewDeadline > 6 * t.retryPeriod && t.retryPeriod > 0
  }

  /** The lease lasts longer than the renewal deadline, which is longer than the retry period,
    * and the timings are ones the elector accepts. */
  lemma LeaseOrdered()
    ensures Lease.leaseDuration > Lease.renewDeadline > Lease.retryPeriod > 0
    ensures Sound(Lease)
  {
  }

  /** Sound timings are strictly decreasing. */
  lemma SoundIsOrdered(t: LeaseTimings)
    requires Sound(t)
    ensures t.leaseDuration > t.renewDeadline > t.retryPeriod
  {
  }
}
