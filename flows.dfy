/** The flow step-config validators (apps/server/src/utils/flows/index.ts):
    a form step may only use the template's fields, in the template's order,
    and none that an earlier form step already uses; the other step kinds
    check their one configuration value. */
module FlowValidation {
  import opened Common
  import opened Entities

  // ---------------------------------------------------------------------
  // isSubarray
  // ---------------------------------------------------------------------

  /** `sub` occurs in `main` in order, not necessarily contiguously, matched
      greedily from the left. */
  predicate IsSubsequence(sub: seq<string>, main: seq<string>)
    decreases |main|
    ensures IsSubsequence(sub, main) ==> |sub| <= |main| && forall x :: x in sub ==> x in main
  {
    if sub == [] then true
    else if main == [] then false
    else if main[0] == sub[0] then
      assert forall x :: x in sub ==> x == sub[0] || x in sub[1..];
      IsSubsequence(sub[1..], main[1..])
    else IsSubsequence(sub, main[1..])
  }

  /** An embedding of `sub` into `main`: strictly increasing positions of
      `main` that hold the elements of `sub`. */
  predicate IsEmbedding(f: seq<nat>, sub: seq<string>, main: seq<string>)
  {
    && |f| == |sub|
    && (forall i :: 0 <= i < |f| ==> f[i] < |main| && main[f[i]] == sub[i])
    && (forall i, j :: 0 <= i < j < |f| ==> f[i] < f[j])
  }

  function Shift(f: seq<nat>): (g: seq<nat>)
    ensures |g| == |f| && forall i :: 0 <= i < |f| ==> g[i] == f[i] + 1
  {
    seq(|f|, i requires 0 <= i < |f| => f[i] + 1)
  }

  function Unshift(f: seq<nat>): (g: seq<nat>)
    requires forall i :: 0 <= i < |f| ==> f[i] > 0
    ensures |g| == |f| && forall i :: 0 <= i < |f| ==> g[i] == f[i] - 1
  {
    seq(|f|, i requires 0 <= i < |f| => f[i] - 1)
  }

  /** Every embedding is found by the greedy test. */
  lemma {:induction false} EmbeddingIsSubsequence(f: seq<nat>, sub: seq<string>, main: seq<string>)
    requires IsEmbedding(f, sub, main)
    ensures IsSubsequence(sub, main)
    decreases |main|
  {
    if sub != [] {
      assert f[0] < |main| && main[f[0]] == sub[0];
      assert forall i :: 0 < i < |f| ==> f[i] > f[0];
      if main[0] == sub[0] {
        // the rest of sub embeds into the rest of main
        var g := Unshift(f[1..]);
        assert IsEmbedding(g, sub[1..], main[1..]) by {
          forall i | 0 <= i < |g| ensures g[i] < |main[1..]| && main[1..][g[i]] == sub[1..][i] {
            assert g[i] == f[i + 1] - 1;
          }
        }
        EmbeddingIsSubsequence(g, sub[1..], main[1..]);
      } else {
        // sub[0] is not at position 0, so all of sub embeds into the rest of main
        assert f[0] > 0;
        var g := Unshift(f);
        assert IsEmbedding(g, sub, main[1..]) by {
          forall i | 0 <= i < |g| ensures g[i] < |main[1..]| && main[1..][g[i]] == sub[i] {
            assert main[1..][g[i]] == main[f[i]];
          }
        }
        EmbeddingIsSubsequence(g, sub, main[1..]);
      }
    }
  }

  /** The greedy test succeeds only when there is an embedding. */
  lemma {:induction false} SubsequenceHasEmbedding(sub: seq<string>, main: seq<string>)
    requires IsSubsequence(sub, main)
    ensures exists f :: IsEmbedding(f, sub, main)
    decreases |main|
  {
    if sub == [] {
      assert IsEmbedding([], sub, main);
    } else if main[0] == sub[0] {
      SubsequenceHasEmbedding(sub[1..], main[1..]);
      var g :| IsEmbedding(g, sub[1..], main[1..]);
      var f := [0] + Shift(g);
      assert IsEmbedding(f, sub, main) by {
        forall i | 0 < i < |f| ensures f[i] < |main| && main[f[i]] == sub[i] {
          assert f[i] == g[i - 1] + 1;
          assert main[f[i]] == main[1..][g[i - 1]];
        }
      }
    } else {
      SubsequenceHasEmbedding(sub, main[1..]);
      var g :| IsEmbedding(g, sub, main[1..]);
      assert IsEmbedding(Shift(g), sub, main) by {
        forall i | 0 <= i < |g| ensures Shift(g)[i] < |main| && main[Shift(g)[i]] == sub[i] {
          assert main[Shift(g)[i]] == main[1..][g[i]];
        }
      }
    }
  }

  /** The greedy test finds an embedding exactly when one exists. */
  lemma SubsequenceIffEmbedding(sub: seq<string>, main: seq<string>)
    ensures IsSubsequence(sub, main) <==> exists f :: IsEmbedding(f, sub, main)
  {
    if IsSubsequence(sub, main) {
      SubsequenceHasEmbedding(sub, main);
    }
    forall f | IsEmbedding(f, sub, main)
      ensures IsSubsequence(sub, main)
    {
      EmbeddingIsSubsequence(f, sub, main);
    }
  }

  lemma SubsequenceStep(sub: seq<string>, main: seq<string>, j: nat, i: nat)
    requires j < |sub| && i < |main|
    ensures IsSubsequence(sub[j..], main[i..]) ==
      if main[i] == sub[j] then IsSubsequence(sub[j + 1..], main[i + 1..]) else IsSubsequence(sub[j..], main[i + 1..])
  {
    assert sub[j..][1..] == sub[j + 1..];
    assert main[i..][1..] == main[i + 1..];
  }

  /** `isSubarray(mainArray, subArray)`: one pass over `main`, advancing
      through `sub` on every match. It reports true as soon as all of `sub`
      has been matched, which for an empty `sub` happens on the first
      element, so an empty `main` always gives false. */
  method IsSubarray(main: seq<string>, sub: seq<string>) returns (r: bool)
    ensures r == (|main| > 0 && IsSubsequence(sub, main))
  {
    var subIndex := 0;
    var i := 0;
    while i < |main|
      invariant 0 <= i <= |main| && 0 <= subIndex <= |sub|
      invariant i > 0 ==> subIndex < |sub|
      invariant IsSubsequence(sub, main) == IsSubsequence(sub[subIndex..], main[i..])
    {
      if subIndex < |sub| {
        SubsequenceStep(sub, main, subIndex, i);
      }
      if subIndex < |sub| && main[i] == sub[subIndex] {
        subIndex := subIndex + 1;
      } else if subIndex < |sub| {
        assert IsSubsequence(sub, main) == IsSubsequence(sub[subIndex..], main[i + 1..]);
      }
      if subIndex == |sub| {
        return true;
      }
      i := i + 1;
    }
    assert main[i..] == [];
    return false;
  }

  // ---------------------------------------------------------------------
  // noOverlap
  // ---------------------------------------------------------------------

  /** `noOverlap(array1, array2)`: put the first array in a set and look each
      element of the second up. */
  method NoOverlap(first: seq<string>, second: seq<string>) returns (r: bool)
    ensures r <==> forall k :: 0 <= k < |second| ==> second[k] !in first
  {
    var set1 := set x | x in first;
    for k := 0 to |second|
      invariant forall m :: 0 <= m < k ==> second[m] !in first
    {
      if second[k] in set1 {
        return false;
      }
    }
    return true;
  }

  /** The element-wise test agrees with disjointness of the two sets. */
  lemma NoOverlapIffDisjoint(first: seq<string>, second: seq<string>)
    ensures (forall k :: 0 <= k < |second| ==> second[k] !in first) <==>
            (set x | x in first) * (set x | x in second) == {}
  {
    if exists k :: 0 <= k < |second| && second[k] in first {
      var k :| 0 <= k < |second| && second[k] in first;
      assert second[k] in (set x | x in first) * (set x | x in second);
    }
    if (set x | x in first) * (set x | x in second) != {} {
      var x :| x in (set x | x in first) * (set x | x in second);
      assert x in second;
      var k :| 0 <= k < |second| && second[k] == x;
    }
  }

  // ---------------------------------------------------------------------
  // validateFormData
  // ---------------------------------------------------------------------

  datatype FormKind = UserForm | IssuerForm

  /** The errors the step validators report. */
  datatype StepError =
    | FieldsAndTemplateMismatchIssuer
    | FieldsAndTemplateMismatchUser
    | FieldsExistInPreviousStep
    | Message(text: string)

  function MismatchError(kind: FormKind): StepError
  {
    if kind == IssuerForm then FieldsAndTemplateMismatchIssuer else FieldsAndTemplateMismatchUser
  }

  predicate IsFormStep(stepType: string)
  {
    stepType == "userForm" || stepType == "issuerForm"
  }

  /** The fields already used by the flow's `userForm` and `issuerForm`
      steps, in step order. */
  function UsedFields(steps: seq<StepConfig>): (fields: seq<string>)
    ensures forall x :: x in fields <==> exists k :: 0 <= k < |steps| && IsFormStep(steps[k].stepType) && x in steps[k].fields
  {
    if steps == [] then []
    else
      var rest := UsedFields(steps[1..]);
      assert forall k :: 0 < k < |steps| ==> steps[k] == steps[1..][k - 1];
      (if IsFormStep(steps[0].stepType) then steps[0].fields else []) + rest
  }

  /** The template fields a form of this kind may use. */
  function TemplateFields(flow: Flow, kind: FormKind): seq<string>
  {
    if kind == UserForm then flow.customFields else flow.issuerFields
  }

  /** The result `validateFormData` reports, defined independently of its
      step-by-step reassignments. */
  function FormDataError(fields: seq<string>, flow: Flow, kind: FormKind): (e: Option<StepError>)
    ensures e.None? ==> |fields| <= |TemplateFields(flow, kind)|
    ensures e.None? ==> forall k :: 0 <= k < |fields| ==>
      fields[k] in TemplateFields(flow, kind) && fields[k] !in UsedFields(flow.steps)
  {
    var template := TemplateFields(flow, kind);
    if exists k :: 0 <= k < |fields| && fields[k] in UsedFields(flow.steps) then Some(FieldsExistInPreviousStep)
    else if !(|template| > 0 && IsSubsequence(fields, template)) then Some(MismatchError(kind))
    else None
  }

  /** No error exactly when both checks pass; a reused field is reported
      even when the fields also mismatch the template. */
  lemma FormDataErrorCases(fields: seq<string>, flow: Flow, kind: FormKind)
    ensures FormDataError(fields, flow, kind).None? <==>
      (|TemplateFields(flow, kind)| > 0 && IsSubsequence(fields, TemplateFields(flow, kind)))
      && forall k :: 0 <= k < |fields| ==> fields[k] !in UsedFields(flow.steps)
    ensures (exists k :: 0 <= k < |fields| && fields[k] in UsedFields(flow.steps)) ==>
      FormDataError(fields, flow, kind) == Some(FieldsExistInPreviousStep)
  {
  }

  /** `validateFormData`: start without an error, record the mismatch, then
      let a reused field overwrite it. */
  method ValidateFormData(fields: seq<string>, flow: Flow, kind: FormKind) returns (error: Option<StepError>)
    ensures error == FormDataError(fields, flow, kind)
  {
    var templateFieldIds := TemplateFields(flow, kind);
    var existingFieldsInSteps := UsedFields(flow.steps);
    error := None;
    var isFieldsConfigSubArray := IsSubarray(templateFieldIds, fields);
    if !isFieldsConfigSubArray {
      error := Some(MismatchError(kind));
    }
    var fieldDoesNotExistInAnotherStep := NoOverlap(existingFieldsInSteps, fields);
    if !fieldDoesNotExistInAnotherStep {
      error := Some(FieldsExistInPreviousStep);
    }
  }

  // ---------------------------------------------------------------------
  // The other step kinds
  // ---------------------------------------------------------------------

  /** `\s` of a JavaScript regular expression. */
  predicate IsSpace(c: char)
  {
    c == ' ' || c == '\t' || c == '\n' || c == '\U{000B}' || c == '\U{000C}' || c == '\r'
    || c == '\U{00A0}' || c == '\U{1680}' || ('\U{2000}' <= c <= '\U{200A}')
    || c == '\U{2028}' || c == '\U{2029}' || c == '\U{202F}' || c == '\U{205F}'
    || c == '\U{3000}' || c == '\U{FEFF}'
  }

  /** The characters `.` does not match. */
  predicate IsLineTerminator(c: char)
  {
    c == '\n' || c == '\r' || c == '\U{2028}' || c == '\U{2029}'
  }

  /** What follows `http://` or `https://`. */
  function AfterScheme(url: string): (rest: Option<string>)
    ensures rest.Some? ==> |rest.value| < |url|
  {
    if StartsWith(url, "https://") then Some(url[8..])
    else if StartsWith(url, "http://") then Some(url[7..])
    else None
  }

  /** `/^https?:\/\/[^\s/$.?#].[^\s]*$/.test(url)`. */
  predicate MatchesHttpUrl(url: string)
    ensures MatchesHttpUrl(url) ==> (StartsWith(url, "http://") || StartsWith(url, "https://")) && |url| >= 9
  {
    match AfterScheme(url)
    case None => false
    case Some(rest) =>
      && |rest| >= 2
      && !IsSpace(rest[0]) && rest[0] !in "/$.?#"
      && !IsLineTerminator(rest[1])
      && forall k :: 2 <= k < |rest| ==> !IsSpace(rest[k])
  }

  /** An accepted url starts with an http(s) scheme, has at least two
      characters after it, and has no whitespace other than in second
      position after the scheme. */
  lemma MatchesHttpUrlShape(url: string)
    requires MatchesHttpUrl(url)
    ensures StartsWith(url, "http://") || StartsWith(url, "https://")
    ensures |url| >= 9
    ensures var p := if StartsWith(url, "https://") then 8 else 7;
      forall k :: p <= k < |url| && k != p + 1 ==> !IsSpace(url[k])
  {
    var p := if StartsWith(url, "https://") then 8 else 7;
    var rest := url[p..];
    assert forall k :: p <= k < |url| ==> url[k] == rest[k - p];
  }

  const UrlMessage := "URL must be a http or https endpoint"
  const TemplatesMessage := "Templates must be defined"
  const KycMessage := "kycLevel must be `basic` or `aml`"

  /** `validateApiStepData`. */
  function ValidateApiStep(c: StepConfig): (e: Option<StepError>)
    ensures e.None? <==> MatchesHttpUrl(c.url)
  {
    if MatchesHttpUrl(c.url) then None else Some(Message(UrlMessage))
  }

  /** `validateRedirectUri`, the check of an `authorize` step. */
  function ValidateRedirectUri(c: StepConfig): (e: Option<StepError>)
    ensures e.None? <==> MatchesHttpUrl(c.url)
  {
    if MatchesHttpUrl(c.url) then None else Some(Message(UrlMessage))
  }

  /** An `apiStep` and an `authorize` step are judged alike. */
  lemma ApiAndAuthorizeAgree(c: StepConfig)
    ensures ValidateApiStep(c) == ValidateRedirectUri(c)
  {
  }

  /** `validateTemplatesData`: a presentation step needs a template. */
  function ValidateTemplates(c: StepConfig): (e: Option<StepError>)
    ensures e.None? <==> |c.templates| > 0
  {
    if |c.templates| > 0 then None else Some(Message(TemplatesMessage))
  }

  /** `validateKycConfig`. */
  function ValidateKyc(c: StepConfig): (e: Option<StepError>)
    ensures e.None? <==> c.kycLevel == "basic" || c.kycLevel == "aml"
  {
    if c.kycLevel in ["basic", "aml"] then None else Some(Message(KycMessage))
  }

  const StepTypes := ["issuerForm", "userForm", "presentation", "review", "apiStep", "authorize", "kyc", "finish", "didLogin"]

  /** `validateFormStepConfig`: the switch on the step type, defined on
      values. It is absent for a type the switch does not list (the source
      then returns `undefined`); otherwise it holds the error the type's
      validator reports, `None` standing for `{error: null}`. */
  function StepConfigError(c: StepConfig, flow: Flow): (r: Option<Option<StepError>>)
    ensures r.None? <==> c.stepType !in StepTypes
    ensures c.stepType in ["review", "finish", "didLogin"] ==> r == Some(None)
    ensures c.stepType == "kyc" ==>
      r == Some(if c.kycLevel == "basic" || c.kycLevel == "aml" then None else Some(Message(KycMessage)))
    ensures c.stepType == "apiStep" || c.stepType == "authorize" ==>
      r == Some(if MatchesHttpUrl(c.url) then None else Some(Message(UrlMessage)))
    ensures c.stepType == "presentation" ==>
      r == Some(if |c.templates| > 0 then None else Some(Message(TemplatesMessage)))
    ensures IsFormStep(c.stepType) ==>
      var kind := if c.stepType == "userForm" then UserForm else IssuerForm;
      var template := TemplateFields(flow, kind);
      var reused := exists k :: 0 <= k < |c.fields| && c.fields[k] in UsedFields(flow.steps);
      && r.Some?
      && (r.value.None? <==> !reused && |template| > 0 && IsSubsequence(c.fields, template))
      && (reused ==> r.value == Some(FieldsExistInPreviousStep))
      && (!reused && r.value.Some? ==> r.value == Some(MismatchError(kind)))
  {
    match c.stepType
    case "issuerForm" => Some(FormDataError(c.fields, flow, IssuerForm))
    case "userForm" => Some(FormDataError(c.fields, flow, UserForm))
    case "presentation" => Some(ValidateTemplates(c))
    case "review" => Some(None)
    case "apiStep" => Some(ValidateApiStep(c))
    case "authorize" => Some(ValidateRedirectUri(c))
    case "kyc" => Some(ValidateKyc(c))
    case "finish" => Some(None)
    case "didLogin" => Some(None)
    case _ => None
  }
}
