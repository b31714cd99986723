/** The `state` correlation string of the SIOP exchange (the OAuth `state`
    parameter of section 4.1.1 of RFC 6749), as the oid4vc controller builds
    it in `newSiopRequest` and takes it apart in `verifyAuthResponse`:
    a bare session id, or `sessionId::applicationId`. */
module StateCodec {
  import opened Common

  const Separator := "::"

  /** The state for a session and an optional application id; a falsy
      application id (absent or "") gives the bare session id. */
  function EncodeState(sessionId: string, applicationId: Option<string>): (state: string)
    ensures !Truthy(applicationId) ==> state == sessionId
    ensures Truthy(applicationId) ==>
      && StartsWith(state, sessionId) && EndsWith(state, applicationId.value)
      && SepAt(state, Separator, |sessionId|)
  {
    if Truthy(applicationId) then sessionId + Separator + applicationId.value else sessionId
  }

  /** `state.split('::')[0]` and `state.split('::')[1]` (the latter absent
      when the state has no separator). */
  function DecodeState(state: string): (r: (string, Option<string>))
    ensures StartsWith(state, r.0)
    ensures r.1.None? <==> !Contains(state, Separator)
  {
    var parts := Split(state, Separator);
    (parts[0], if |parts| >= 2 then Some(parts[1]) else None)
  }

  /** A session id the separator cannot run into: it holds no `::` and does
      not end in `:` (true of the uuid keys sessions get). */
  predicate PlainSessionId(s: string)
  {
    !Contains(s, Separator) && (|s| == 0 || s[|s| - 1] != ':')
  }

  /** The first separator of an encoded state sits right after the session id. */
  lemma FindSeparatorAfterSession(s: string, a: string)
    requires PlainSessionId(s)
    ensures Find(s + Separator + a, Separator) == Some(|s|)
  {
    var t := s + Separator + a;
    assert SepAt(t, Separator, |s|) by {
      assert t[|s|..|s| + 2] == Separator;
    }
    forall j: nat | j < |s|
      ensures !SepAt(t, Separator, j)
    {
      if j + 2 <= |s| {
        assert t[j..j + 2] == s[j..j + 2];
        assert !SepAt(s, Separator, j);
      } else {
        assert t[j] == s[|s| - 1] != ':';
        assert j + 2 > |t| || t[j..j + 2][0] != ':';
      }
    }
  }

  /** Decoding an encoded state recovers the session id and the application
      id, provided neither can be confused with the separator. */
  lemma DecodeEncode(sessionId: string, applicationId: Option<string>)
    requires PlainSessionId(sessionId)
    requires Truthy(applicationId) ==> !Contains(applicationId.value, Separator)
    ensures DecodeState(EncodeState(sessionId, applicationId)) ==
      (sessionId, if Truthy(applicationId) then applicationId else None)
  {
    if Truthy(applicationId) {
      var a := applicationId.value;
      var t := sessionId + Separator + a;
      FindSeparatorAfterSession(sessionId, a);
      assert t[..|sessionId|] == sessionId;
      assert t[|sessionId| + 2..] == a;
      NoSepFirstPiece(a, Separator);
      assert Split(t, Separator) == [sessionId] + Split(a, Separator);
    } else {
      NoSepFirstPiece(sessionId, Separator);
    }
  }

  /** `verifyAuthResponse` takes the flow branch exactly for the states built
      with an application id. */
  lemma FlowStateIff(sessionId: string, applicationId: Option<string>)
    requires PlainSessionId(sessionId)
    ensures Contains(EncodeState(sessionId, applicationId), Separator) <==> Truthy(applicationId)
  {
    if Truthy(applicationId) {
      FindSeparatorAfterSession(sessionId, applicationId.value);
    }
  }

  /** A state without a separator decodes to itself with no second part. */
  lemma DecodePlainState(state: string)
    requires !Contains(state, Separator)
    ensures DecodeState(state) == (state, None)
  {
    NoSepFirstPiece(state, Separator);
  }
}
