/**
 * The signup page (`client/src/pages/SignupPage.jsx`): the password-strength
 * meter, the form's input routing, its validation and its submission. The
 * page's state (`formData`, `errors`, `passwordStrength`, `isLoading`) is the
 * `SignupForm` class; the strength check and the validation are methods that
 * build their results step by step, each specified by a function.
 */
module SignupPage {
  import opened Wrappers
  import opened Js
  import Patterns
  import Seqs
  import Api
  import FormInput

  // ---------------------------------------------------------------------------
  // Password strength

  predicate HasLower(p: string) { exists k :: 0 <= k < |p| && IsAsciiLower(p[k]) }
  predicate HasUpper(p: string) { exists k :: 0 <= k < |p| && IsAsciiUpper(p[k]) }
  predicate HasDigit(p: string) { exists k :: 0 <= k < |p| && IsDigit(p[k]) }
  /** `/[^A-Za-z0-9]/`. */
  predicate HasSpecial(p: string) { exists k :: 0 <= k < |p| && !IsAsciiAlnum(p[k]) }

  /** The five criteria, in the order the page checks them (SignupPage.jsx:34-62). */
  function Criteria(p: string): (cs: seq<bool>)
    ensures |cs| == 5
  {
    [|p| >= 8, HasLower(p), HasUpper(p), HasDigit(p), HasSpecial(p)]
  }

  /** The hint for each criterion, in the same order. */
  const Hints: seq<string> := ["At least 8 characters", "Include lowercase letter",
    "Include uppercase letter", "Include number", "Include special character"]

  /** The number of criteria met. */
  function Count(bs: seq<bool>): nat
    decreases |bs|
  {
    if bs == [] then 0 else (if bs[0] then 1 else 0) + Count(bs[1..])
  }

  /** The hints of the criteria not met, in order. */
  function Missing(bs: seq<bool>, hints: seq<string>): seq<string>
    requires |bs| == |hints|
    decreases |bs|
  {
    if bs == [] then [] else (if bs[0] then [] else [hints[0]]) + Missing(bs[1..], hints[1..])
  }

  /** The score: one point per criterion met, in the page's order. */
  function ScoreOf(p: string): nat {
    Point(|p| >= 8) + Point(HasLower(p)) + Point(HasUpper(p)) + Point(HasDigit(p)) + Point(HasSpecial(p))
  }

  /** The feedback: the hint of every criterion not met, in the page's order. */
  function FeedbackOf(p: string): seq<string> {
    (if |p| >= 8 then [] else [Hints[0]]) + (if HasLower(p) then [] else [Hints[1]])
    + (if HasUpper(p) then [] else [Hints[2]]) + (if HasDigit(p) then [] else [Hints[3]])
    + (if HasSpecial(p) then [] else [Hints[4]])
  }

  function Point(b: bool): nat { if b then 1 else 0 }

  lemma CountOfFive(cs: seq<bool>)
    requires |cs| == 5
    ensures Count(cs) == Point(cs[0]) + Point(cs[1]) + Point(cs[2]) + Point(cs[3]) + Point(cs[4])
  {
    var c1 := cs[1..];
    var c2 := c1[1..];
    var c3 := c2[1..];
    var c4 := c3[1..];
    assert c1[0] == cs[1] && c2[0] == cs[2] && c3[0] == cs[3] && c4[0] == cs[4] && c4[1..] == [];
    assert Count(c4) == Point(cs[4]);
    assert Count(c3) == Point(cs[3]) + Count(c4);
    assert Count(c2) == Point(cs[2]) + Count(c3);
    assert Count(c1) == Point(cs[1]) + Count(c2);
  }

  lemma MissingOfFive(cs: seq<bool>, hs: seq<string>)
    requires |cs| == 5 && |hs| == 5
    ensures Missing(cs, hs) == (if cs[0] then [] else [hs[0]]) + (if cs[1] then [] else [hs[1]])
      + (if cs[2] then [] else [hs[2]]) + (if cs[3] then [] else [hs[3]]) + (if cs[4] then [] else [hs[4]])
  {
    var c1, h1 := cs[1..], hs[1..];
    var c2, h2 := c1[1..], h1[1..];
    var c3, h3 := c2[1..], h2[1..];
    var c4, h4 := c3[1..], h3[1..];
    assert c1[0] == cs[1] && c2[0] == cs[2] && c3[0] == cs[3] && c4[0] == cs[4] && c4[1..] == [];
    assert h1[0] == hs[1] && h2[0] == hs[2] && h3[0] == hs[3] && h4[0] == hs[4] && h4[1..] == [];
    var m0, m1, m2 := (if cs[0] then [] else [hs[0]]), (if cs[1] then [] else [hs[1]]), (if cs[2] then [] else [hs[2]]);
    var m3, m4 := (if cs[3] then [] else [hs[3]]), (if cs[4] then [] else [hs[4]]);
    assert Missing(c4[1..], h4[1..]) == [];
    assert Missing(c4, h4) == m4 + [];
    assert m4 + [] == m4;
    assert Missing(c3, h3) == m3 + m4;
    assert Missing(c2, h2) == m2 + (m3 + m4);
    assert Missing(c1, h1) == m1 + (m2 + (m3 + m4));
    assert Missing(cs, hs) == m0 + (m1 + (m2 + (m3 + m4)));
    Seqs.AppendAssoc5(m0, m1, m2, m3, m4);
  }

  /** The score counts the criteria met, and the feedback lists the hints of those missed. */
  lemma ScoreOfFive(p: string)
    ensures ScoreOf(p) == Count(Criteria(p))
    ensures FeedbackOf(p) == Missing(Criteria(p), Hints)
  {
    CountOfFive(Criteria(p));
    MissingOfFive(Criteria(p), Hints);
  }

  /**
   * `checkPasswordStrength` (SignupPage.jsx:30-65): a point for each criterion
   * met, and the hint of each one missed.
   */
  method CheckPasswordStrength(password: string) returns (score: nat, feedback: seq<string>)
    ensures score == ScoreOf(password) && feedback == FeedbackOf(password)
  {
    score, feedback := Grade(0, [], |password| >= 8, Hints[0]);
    assert feedback == if |password| >= 8 then [] else [Hints[0]];
    score, feedback := Grade(score, feedback, HasLower(password), Hints[1]);
    score, feedback := Grade(score, feedback, HasUpper(password), Hints[2]);
    score, feedback := Grade(score, feedback, HasDigit(password), Hints[3]);
    score, feedback := Grade(score, feedback, HasSpecial(password), Hints[4]);
  }

  /** One criterion of `checkPasswordStrength`: a point when it is met, its hint when it is not. */
  method Grade(score: nat, feedback: seq<string>, met: bool, hint: string) returns (score': nat, feedback': seq<string>)
    ensures score' == score + Point(met) && feedback' == feedback + (if met then [] else [hint])
  {
    score', feedback' := score, feedback;
    if met {
      score' := score' + 1;
    } else {
      feedback' := feedback' + [hint];
    }
  }

  lemma {:induction false} CountPlusMissing(bs: seq<bool>, hints: seq<string>)
    requires |bs| == |hints|
    ensures Count(bs) + |Missing(bs, hints)| == |bs|
    decreases |bs|
  {
    if bs != [] {
      CountPlusMissing(bs[1..], hints[1..]);
    }
  }

  /** Every criterion gives either a point or a hint: the score is at most 5 and score + |feedback| is 5. */
  lemma ScorePlusFeedbackIsFive(p: string)
    ensures ScoreOf(p) <= 5
    ensures ScoreOf(p) + |FeedbackOf(p)| == 5
  {
    ScoreOfFive(p);
    CountPlusMissing(Criteria(p), Hints);
  }

  lemma {:induction false} MissingIsSubsequence(bs: seq<bool>, hints: seq<string>)
    requires |bs| == |hints|
    ensures Seqs.IsSubsequence(Missing(bs, hints), hints)
    decreases |bs|
  {
    if bs != [] {
      MissingIsSubsequence(bs[1..], hints[1..]);
      var rest := Missing(bs[1..], hints[1..]);
      if !bs[0] {
        assert Missing(bs, hints) == [hints[0]] + rest;
        assert ([hints[0]] + rest)[1..] == rest;
      } else {
        assert Missing(bs, hints) == rest;
        if rest != [] {
          assert Seqs.IsSubsequence(rest, hints[1..]);
        }
      }
    }
  }

  lemma {:induction false} MissingMembers(bs: seq<bool>, hints: seq<string>, i: nat)
    requires |bs| == |hints| && i < |bs|
    requires forall a, b :: 0 <= a < b < |hints| ==> hints[a] != hints[b]
    ensures hints[i] in Missing(bs, hints) <==> !bs[i]
    decreases |bs|
  {
    var rest := Missing(bs[1..], hints[1..]);
    assert Missing(bs, hints) == (if bs[0] then [] else [hints[0]]) + rest;
    if i == 0 {
      MissingWithin(bs[1..], hints[1..], hints[0]);
    } else {
      MissingMembers(bs[1..], hints[1..], i - 1);
      assert hints[1..][i - 1] == hints[i];
    }
  }

  lemma {:induction false} MissingWithin(bs: seq<bool>, hints: seq<string>, x: string)
    requires |bs| == |hints| && x !in hints
    ensures x !in Missing(bs, hints)
    decreases |bs|
  {
    if bs != [] {
      MissingWithin(bs[1..], hints[1..], x);
    }
  }

  /** The feedback lists the hints of the failed criteria exactly, in the fixed order. */
  lemma FeedbackInOrder(p: string)
    ensures Seqs.IsSubsequence(FeedbackOf(p), Hints)
    ensures forall i :: 0 <= i < 5 ==> (Hints[i] in FeedbackOf(p) <==> !Criteria(p)[i])
  {
    ScoreOfFive(p);
    MissingIsSubsequence(Criteria(p), Hints);
    forall i | 0 <= i < 5
      ensures Hints[i] in FeedbackOf(p) <==> !Criteria(p)[i]
    {
      MissingMembers(Criteria(p), Hints, i);
    }
  }

  lemma {:induction false} CountMonotone(bs: seq<bool>, cs: seq<bool>)
    requires |bs| == |cs| && forall k :: 0 <= k < |bs| && bs[k] ==> cs[k]
    ensures Count(bs) <= Count(cs)
    decreases |bs|
  {
    if bs != [] {
      CountMonotone(bs[1..], cs[1..]);
    }
  }

  /** Typing more characters never lowers the score: every criterion met stays met. */
  lemma AppendNeverLowersScore(p: string, q: string)
    ensures ScoreOf(p) <= ScoreOf(p + q)
  {
    var pq := p + q;
    assert forall k :: 0 <= k < |p| ==> pq[k] == p[k];
    CountMonotone(Criteria(p), Criteria(pq));
    ScoreOfFive(p);
    ScoreOfFive(pq);
  }

  /** `getPasswordStrengthText` (SignupPage.jsx:142-146). */
  function StrengthText(score: int): (t: string)
    ensures t == "Weak" <==> score <= 2
    ensures t == "Fair" <==> score == 3
    ensures t == "Strong" <==> score >= 4
  {
    if score <= 2 then "Weak" else if score <= 3 then "Fair" else "Strong"
  }

  /** `getPasswordStrengthColor` (SignupPage.jsx:135-139). */
  function StrengthColor(score: int): (c: string)
    ensures c == "text-red-500" <==> score <= 2
    ensures c == "text-yellow-500" <==> score == 3
    ensures c == "text-green-500" <==> score >= 4
  {
    if score <= 2 then "text-red-500" else if score <= 3 then "text-yellow-500" else "text-green-500"
  }

  /** A password that passes validation (score at least 3) is never shown as Weak. */
  lemma AcceptedPasswordNotWeak(p: string)
    requires ScoreOf(p) >= 3
    ensures StrengthText(ScoreOf(p)) != "Weak" && StrengthColor(ScoreOf(p)) != "text-red-500"
  {
  }

  /** A password of eight lowercase letters only meets two criteria: it is Weak and is refused. */
  lemma LowercaseOnlyIsWeak()
    ensures ScoreOf("abcdefgh") == 2 && StrengthText(ScoreOf("abcdefgh")) == "Weak"
  {
    assert IsAsciiLower("abcdefgh"[0]);
    assert !HasSpecial("abcdefgh");
  }

  // ---------------------------------------------------------------------------
  // The form

  /** The top-level string fields of `formData`. */
  const FieldNames: set<string> := {"companyName", "email", "password", "mobile", "address"}

  const InitialFields: map<string, string> :=
    map["companyName" := "", "email" := "", "password" := "", "mobile" := "", "address" := ""]
  const InitialSocialLinks: map<string, string> :=
    map["website" := "", "facebook" := "", "instagram" := "", "twitter" := ""]

  /** The empty form has every field, and its empty password scores 0. */
  lemma InitialFieldsValid()
    ensures FieldNames <= InitialFields.Keys && ScoreOf(InitialFields["password"]) == 0
  {
    assert InitialFields["password"] == "";
  }

  /** The errors `validateForm` finds (SignupPage.jsx:102-132), given the fields and the current score. */
  function FormErrors(fields: map<string, string>, score: int): map<string, string>
    requires FieldNames <= fields.Keys
  {
    ErrorsOf(Trim(fields["companyName"]) == "",
             Trim(fields["email"]) == "", !Patterns.MatchesEmail(fields["email"]),
             fields["password"] == "", score < 3,
             fields["mobile"] == "", !Patterns.InternationalNumber(Patterns.RemoveSpaces(fields["mobile"])),
             Trim(fields["address"]) == "")
  }

  /** The error map, given which of the checks fail, field by field in the page's order. */
  function ErrorsOf(noCompany: bool, noEmail: bool, badEmail: bool, noPassword: bool, weak: bool,
                    noMobile: bool, badMobile: bool, noAddress: bool): map<string, string>
  {
    var e1 := FormInput.Rule(map[], "companyName", noCompany, "Company name is required", false, "");
    var e2 := FormInput.Rule(e1, "email", noEmail, "Email is required", badEmail, "Invalid email format");
    var e3 := FormInput.Rule(e2, "password", noPassword, "Password is required", weak, "Password is too weak");
    var e4 := FormInput.Rule(e3, "mobile", noMobile, "Mobile number is required", badMobile, "Invalid mobile number format");
    FormInput.Rule(e4, "address", noAddress, "Address is required", false, "")
  }

  /** Each field's entry depends on its own checks only, and no other key is set. */
  lemma ErrorsOfByField(noCompany: bool, noEmail: bool, badEmail: bool, noPassword: bool, weak: bool,
                        noMobile: bool, badMobile: bool, noAddress: bool)
    ensures var e := ErrorsOf(noCompany, noEmail, badEmail, noPassword, weak, noMobile, badMobile, noAddress);
      && e.Keys <= FieldNames
      && ("companyName" in e <==> noCompany)
      && ("email" in e <==> noEmail || badEmail)
      && ("email" in e ==> e["email"] == if noEmail then "Email is required" else "Invalid email format")
      && ("password" in e <==> noPassword || weak)
      && ("password" in e ==> e["password"] == if noPassword then "Password is required" else "Password is too weak")
      && ("mobile" in e <==> noMobile || badMobile)
      && ("mobile" in e ==> e["mobile"] == if noMobile then "Mobile number is required" else "Invalid mobile number format")
      && ("address" in e <==> noAddress)
  {
  }

  /** What each field's error is, and when there is none. */
  lemma FormErrorsByField(fields: map<string, string>, score: int)
    requires FieldNames <= fields.Keys
    ensures FormErrors(fields, score).Keys <= FieldNames
    ensures "companyName" in FormErrors(fields, score) <==> Trim(fields["companyName"]) == ""
    ensures "email" in FormErrors(fields, score) <==>
      (Trim(fields["email"]) == "" || !Patterns.EmailRegexMatches(fields["email"]))
    ensures "email" in FormErrors(fields, score) ==>
      (FormErrors(fields, score)["email"] == (if Trim(fields["email"]) == "" then "Email is required" else "Invalid email format"))
    ensures "password" in FormErrors(fields, score) <==> (fields["password"] == "" || score < 3)
    ensures "password" in FormErrors(fields, score) ==>
      (FormErrors(fields, score)["password"] == (if fields["password"] == "" then "Password is required" else "Password is too weak"))
    ensures "mobile" in FormErrors(fields, score) <==>
      (fields["mobile"] == "" || !Patterns.InternationalNumber(Patterns.RemoveSpaces(fields["mobile"])))
    ensures "mobile" in FormErrors(fields, score) ==>
      (FormErrors(fields, score)["mobile"] == (if fields["mobile"] == "" then "Mobile number is required" else "Invalid mobile number format"))
    ensures "address" in FormErrors(fields, score) <==> Trim(fields["address"]) == ""
  {
    Patterns.EmailScanIsRegex(fields["email"]);
    ErrorsOfByField(Trim(fields["companyName"]) == "",
                    Trim(fields["email"]) == "", !Patterns.MatchesEmail(fields["email"]),
                    fields["password"] == "", score < 3,
                    fields["mobile"] == "", !Patterns.InternationalNumber(Patterns.RemoveSpaces(fields["mobile"])),
                    Trim(fields["address"]) == "");
  }

  /** The `formData` object the page posts. */
  function FormValue(fields: map<string, string>, socialLinks: map<string, string>): JsValue {
    var top: map<string, JsValue> := map k | k in fields :: Str(fields[k]);
    Obj(top["socialLinks" := Obj(map k | k in socialLinks :: Str(socialLinks[k]))])
  }

  /** The endpoint the page posts to, as written (SignupPage.jsx:160). */
  const AsWrittenEndpoint: string := "/api/auth/signup"
  /** The endpoint that reaches the signup route; `/api` is already added by the client. */
  const SignupEndpoint: string := "/auth/signup"
  /** The server's signup path: the auth router is mounted at `/api/auth` and has `/signup`. */
  const ServerSignupPath: string := "/api/auth" + "/signup"

  /** As written, the client prefixes `/api` a second time, and the URL is not the server's route. */
  lemma AsWrittenSignupMissesRoute(base: string)
    ensures Api.RequestUrl(base, AsWrittenEndpoint) == base + "/api/api/auth/signup"
    ensures Api.RequestUrl(base, AsWrittenEndpoint) != base + ServerSignupPath
  {
    var url := Api.RequestUrl(base, AsWrittenEndpoint);
    assert |url| == |base + ServerSignupPath| + 4;
  }

  /** The corrected endpoint reaches the server's route. */
  lemma CorrectedSignupReachesRoute(base: string)
    ensures Api.RequestUrl(base, SignupEndpoint) == base + ServerSignupPath
  {
    assert "/api" + SignupEndpoint == ServerSignupPath;
  }

  class SignupForm {
    var fields: map<string, string>
    var socialLinks: map<string, string>
    var errors: map<string, string>
    var score: nat
    var feedback: seq<string>
    var isLoading: bool

    /** The five fields exist, and the score is that of the current password. */
    ghost predicate Valid()
      reads this
    {
      FieldNames <= fields.Keys && score == ScoreOf(fields["password"])
    }

    constructor ()
      ensures fields == InitialFields && socialLinks == InitialSocialLinks
      ensures errors == map[] && score == 0 && feedback == [] && !isLoading
      ensures Valid()
    {
      fields := InitialFields;
      socialLinks := InitialSocialLinks;
      errors := map[];
      score := 0;
      feedback := [];
      isLoading := false;
      InitialFieldsValid();
    }

    /**
     * `handleInputChange` (SignupPage.jsx:68-99): a `social.k` name sets
     * `socialLinks.k`, any other name the field of that name; a truthy error
     * under the name is cleared, and a password is scored.
     */
    method HandleInputChange(name: string, value: string)
      requires Valid()
      modifies this
      ensures Valid()
      ensures StartsWith(name, "social.") ==>
        socialLinks == old(socialLinks)[FormInput.SocialKey(name) := value] && fields == old(fields)
      ensures !StartsWith(name, "social.") ==>
        fields == old(fields)[name := value] && socialLinks == old(socialLinks)
      ensures errors == FormInput.ClearError(old(errors), name)
      ensures name == "password" ==> score == ScoreOf(value) && feedback == FeedbackOf(value)
      ensures name != "password" ==> score == old(score) && feedback == old(feedback)
      ensures isLoading == old(isLoading)
    {
      SetValue(name, value);
      errors := FormInput.ClearError(errors, name);
      if name == "password" {
        assert name[0] != "social."[0];
        score, feedback := CheckPasswordStrength(value);
      }
    }

    /** The `setFormData` of `handleInputChange`: a social link or a top-level field. */
    method SetValue(name: string, value: string)
      modifies this
      ensures StartsWith(name, "social.") ==>
        socialLinks == old(socialLinks)[FormInput.SocialKey(name) := value] && fields == old(fields)
      ensures !StartsWith(name, "social.") ==>
        fields == old(fields)[name := value] && socialLinks == old(socialLinks)
      ensures errors == old(errors) && score == old(score) && feedback == old(feedback) && isLoading == old(isLoading)
    {
      if StartsWith(name, "social.") {
        socialLinks := socialLinks[FormInput.SocialKey(name) := value];
      } else {
        fields := fields[name := value];
      }
    }

    /** `validateForm`: the errors are assigned field by field. */
    method ValidateForm() returns (newErrors: map<string, string>)
      requires Valid()
      ensures newErrors == FormErrors(fields, score)
    {
      newErrors := map[];
      newErrors := FormInput.CheckField(newErrors, "companyName", Trim(fields["companyName"]) == "",
                                        "Company name is required", false, "");
      newErrors := FormInput.CheckField(newErrors, "email", Trim(fields["email"]) == "", "Email is required",
                                        !Patterns.MatchesEmail(fields["email"]), "Invalid email format");
      newErrors := FormInput.CheckField(newErrors, "password", fields["password"] == "", "Password is required",
                                        score < 3, "Password is too weak");
      newErrors := FormInput.CheckField(newErrors, "mobile", fields["mobile"] == "", "Mobile number is required",
                                        !Patterns.InternationalNumber(Patterns.RemoveSpaces(fields["mobile"])),
                                        "Invalid mobile number format");
      newErrors := FormInput.CheckField(newErrors, "address", Trim(fields["address"]) == "",
                                        "Address is required", false, "");
    }

    /**
     * `handleSubmit` (SignupPage.jsx:148-168): with errors, they are shown and
     * nothing is sent; otherwise the form is posted through `Post`.
     */
    method HandleSubmit(client: Api.ApiClient, fetch: (string, Api.RequestConfig, nat) -> Api.FetchOutcome)
      returns (sent: bool, call: Option<Api.Call>, signedUp: bool)
      requires Valid()
      modifies this, client
      ensures Valid()
      ensures fields == old(fields) && socialLinks == old(socialLinks)
      ensures score == old(score) && feedback == old(feedback)
      ensures sent <==> old(FormErrors(fields, score)) == map[]
      ensures !sent ==> errors == old(FormErrors(fields, score)) && isLoading == old(isLoading) && call.None? && !signedUp
      ensures sent ==> call == Some(Api.Dispatch(SignupEndpoint, "POST", FormValue(fields, socialLinks))) && !isLoading
      ensures sent && !signedUp ==> errors.Keys == {"general"} && errors["general"] != ""
      ensures signedUp ==> errors == old(errors)
      ensures sent ==> (signedUp <==> !old(client.Outcome(call.value, Undefined, fetch)).Rejected?)
    {
      var newErrors := ValidateForm();
      if newErrors != map[] {
        errors := newErrors;
        return false, None, false;
      }
      sent := true;
      var c;
      c, signedUp := Post(client, fetch);
      call := Some(c);
    }

    /**
     * The valid branch of `handleSubmit` (SignupPage.jsx:156-167): the form is
     * posted to `SignupEndpoint` while loading, and a failure is shown as the
     * general error. The path is the corrected one; the source's
     * `AsWrittenEndpoint` reaches no route (`AsWrittenSignupMissesRoute`).
     */
    method Post(client: Api.ApiClient, fetch: (string, Api.RequestConfig, nat) -> Api.FetchOutcome)
      returns (call: Api.Call, signedUp: bool)
      modifies this, client
      ensures fields == old(fields) && socialLinks == old(socialLinks)
      ensures score == old(score) && feedback == old(feedback)
      ensures call == Api.Dispatch(SignupEndpoint, "POST", FormValue(fields, socialLinks)) && !isLoading
      ensures !signedUp ==> errors.Keys == {"general"} && errors["general"] != ""
      ensures signedUp ==> errors == old(errors)
      ensures signedUp <==> !old(client.Outcome(call, Undefined, fetch)).Rejected?
      ensures !signedUp ==> errors == map["general" := Api.Legacy(old(client.Outcome(call, Undefined, fetch)).failure).message]
    {
      signedUp := false;
      isLoading := true;
      var inner, r;
      call, inner, r := Api.ApiRequest(client, SignupEndpoint, Some("POST"), FormValue(fields, socialLinks), Undefined, fetch);
      match r {
        case Ok(_) => signedUp := true;
        case Threw(e) =>
          errors := map["general" := if e.message != "" then e.message else "Signup failed. Please try again."];
        case Nothing => signedUp := true;
      }
      isLoading := false;
    }
  }

  /** The page's fallback message is never shown: a rethrown error always has a message. */
  lemma SignupFallbackUnreachable(f: Api.Failure)
    ensures Api.Legacy(f).message != ""
  {
  }
}
