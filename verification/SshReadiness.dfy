/** The readiness poll of a new machine (pollSSHReady in pkg/resourcemanager/macos_poststart.go). */
module SshReadiness {
  import opened Wrappers

  /** Why a context ended. */
  datatype Cause = DeadlineExceeded | Canceled

  /**
   * What a probe returned: its text, whether errdefs calls it an invalid input, the context error
   * that it is, if it is one itself, and those that it wraps.
   */
  datatype ProbeError = ProbeError(text: string, invalidInput: bool, bare: Option<Cause>, wraps: set<Cause>)

  /** errors.Is. */
  predicate Is(e: ProbeError, cause: Cause) {
    e.bare == Some(cause) || cause in e.wraps
  }

  const AuthText: string := "unable to authenticate"

  predicate StartsWith(s: string, prefix: string) {
    |prefix| <= |s| && s[..|prefix|] == prefix
  }

  function Contains(s: string, part: string): (r: bool)
    ensures r <==> exists i: nat :: i <= |s| && StartsWith(s[i..], part)
  {
    if StartsWith(s, part) then
      assert s[0..] == s;
      true
    else if s == "" then
      assert forall i: nat :: i <= |s| ==> s[i..] == s;
      false
    else
      assert forall i: nat :: 0 < i <= |s| ==> s[i..] == s[1..][i - 1..];
      assert s[0..] == s;
      assert forall i: nat :: i <= |s[1..]| ==> s[1..][i..] == s[i + 1..];
      Contains(s[1..], part)
  }

  /** isSSHAuthFailure. */
  predicate IsSshAuthFailure(e: ProbeError) {
    Contains(e.text, AuthText)
  }

  /** Trying again does not help. */
  predicate Permanent(e: ProbeError) {
    e.invalidInput || IsSshAuthFailure(e)
  }

  datatype Outcome =
    | Ready
    | Failed(e: ProbeError, capped: bool)                  // the probe error alone
    | Ended(cause: Cause, last: Option<ProbeError>)        // the wait ended; with the last probe error

  /** The attempt ends the poll: it succeeds (None) or fails for good. */
  predicate Decides(attempt: Option<ProbeError>) {
    attempt.None? || Permanent(attempt.value)
  }

  /** Success decides, and so does an invalid input or an error whose text has the words of a rejected login. */
  lemma DecidesIff(attempt: Option<ProbeError>)
    ensures Decides(attempt) <==>
            || attempt.None?
            || attempt.value.invalidInput
            || exists i: nat :: i <= |attempt.value.text|
                && StartsWith(attempt.value.text[i..], "unable to authenticate")
  {
  }

  predicate FirstDecides(attempts: seq<Option<ProbeError>>, k: nat) {
    k < |attempts| && Decides(attempts[k]) && forall j :: 0 <= j < k ==> !Decides(attempts[j])
  }

  /** Of a context error that the wait ended with, the last probe error says nothing new. */
  function Joined(last: Option<ProbeError>, cause: Cause): Option<ProbeError> {
    if last.Some? && last.value.bare == Some(cause) then None else last
  }

  /**
   * pollSSHReady, for the attempts that are made before the context ends. The first attempt that
   * succeeds or fails for good decides; with none, the last failure is joined with the cause.
   */
  method PollSshReady(attempts: seq<Option<ProbeError>>, cause: Cause) returns (r: Outcome)
    ensures r == Ready <==> exists k: nat :: FirstDecides(attempts, k) && attempts[k].None?
    ensures r.Failed? <==> exists k: nat :: FirstDecides(attempts, k) && attempts[k].Some?
    ensures r.Failed? ==> exists k: nat :: FirstDecides(attempts, k) && attempts[k] == Some(r.e)
    ensures r.Failed? ==> (r.capped <==> r.e.bare == Some(DeadlineExceeded) || DeadlineExceeded in r.e.wraps)
    ensures r.Ended? ==> r.cause == cause
    ensures r.Ended? && attempts == [] ==> r.last == None
    ensures r.Ended? && attempts != [] ==>
              && attempts[|attempts| - 1].Some?
              && r.last == if attempts[|attempts| - 1].value.bare == Some(cause) then None else attempts[|attempts| - 1]
    ensures r.Ended? ==> r == Ended(cause, Joined(if attempts == [] then None else attempts[|attempts| - 1], cause))
  {
    var lastErr: Option<ProbeError> := None;
    for i := 0 to |attempts|
      invariant forall j :: 0 <= j < i ==> !Decides(attempts[j])
      invariant lastErr == if i == 0 then None else attempts[i - 1]
    {
      lastErr := attempts[i];
      if lastErr.None? {
        assert FirstDecides(attempts, i);
        return Ready;
      }
      if lastErr.value.invalidInput || IsSshAuthFailure(lastErr.value) {
        assert FirstDecides(attempts, i);
        return Failed(lastErr.value, Is(lastErr.value, DeadlineExceeded));
      }
    }
    if lastErr.Some? && lastErr.value.bare != Some(cause) {
      return Ended(cause, lastErr);
    }
    return Ended(cause, None);
  }

  /** Attempts after the deciding one do not matter. */
  lemma DecidedEarly(attempts: seq<Option<ProbeError>>, later: seq<Option<ProbeError>>, k: nat)
    requires FirstDecides(attempts, k)
    ensures forall j: nat :: FirstDecides(attempts + later, j) <==> j == k
  {
    assert forall j :: 0 <= j < |attempts| ==> (attempts + later)[j] == attempts[j];
  }
}
