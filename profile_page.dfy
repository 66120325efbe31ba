/**
 * The profile page (`client/src/pages/ProfilePage.jsx`): the profile form,
 * filled from the signed-in user, its validation and its save; the password
 * form, its validation and its (mock) change; and cancelling an edit. The
 * page's state is the `ProfileForm` class. Saving hands the form to
 * `updateUser` of the auth context; the call is the method's result.
 */
module ProfilePage {
  import opened Wrappers
  import opened Js
  import Patterns
  import Seqs
  import FormInput

  const FieldNames: set<string> := {"companyName", "email", "mobile", "address"}
  const SocialNames: set<string> := {"website", "facebook", "instagram", "twitter"}
  const PasswordNames: set<string> := {"currentPassword", "newPassword", "confirmPassword"}

  /** `v || ''` for a property of the user: a missing or empty value is `''`. */
  function TextOr(v: JsValue): (t: string)
    ensures !Truthy(v) ==> t == ""
    ensures v.Str? ==> t == v.s
  {
    if v.Str? then v.s else ""
  }

  /** The profile fields taken from the user (ProfilePage.jsx:12-16). */
  function UserFields(user: JsValue): (m: map<string, string>)
    ensures m.Keys == FieldNames
    ensures forall k :: k in FieldNames ==> m[k] == TextOr(Get(user, k))
  {
    map k | k in FieldNames :: TextOr(Get(user, k))
  }

  /** The social links taken from `user.socialLinks` (ProfilePage.jsx:17-22). */
  function UserSocialLinks(user: JsValue): (m: map<string, string>)
    ensures m.Keys == SocialNames
    ensures forall k :: k in SocialNames ==> m[k] == TextOr(Get(Get(user, "socialLinks"), k))
  {
    map k | k in SocialNames :: TextOr(Get(Get(user, "socialLinks"), k))
  }

  /** With no user signed in, every field and link is `''`. */
  lemma NoUserGivesEmptyForm()
    ensures UserFields(Null) == map k | k in FieldNames :: ""
    ensures UserSocialLinks(Null) == map k | k in SocialNames :: ""
  {
  }

  const EmptyPasswords: map<string, string> := map["currentPassword" := "", "newPassword" := "", "confirmPassword" := ""]

  /** The errors `validateForm` finds (ProfilePage.jsx:75-99). */
  function ProfileErrors(fields: map<string, string>): map<string, string>
    requires FieldNames <= fields.Keys
  {
    ErrorsOf(Trim(fields["companyName"]) == "",
             Trim(fields["email"]) == "", !Patterns.MatchesEmail(fields["email"]),
             Trim(fields["mobile"]) == "", !Patterns.TenDigits(Patterns.RemoveSpacesAndHyphens(fields["mobile"])),
             Trim(fields["address"]) == "")
  }

  /** The error map, given which of the checks fail, field by field in the page's order. */
  function ErrorsOf(noCompany: bool, noEmail: bool, badEmail: bool, noMobile: bool, badMobile: bool,
                    noAddress: bool): map<string, string>
  {
    var e1 := FormInput.Rule(map[], "companyName", noCompany, "Company name is required", false, "");
    var e2 := FormInput.Rule(e1, "email", noEmail, "Email is required", badEmail, "Invalid email format");
    var e3 := FormInput.Rule(e2, "mobile", noMobile, "Mobile number is required", badMobile, "Invalid mobile number format");
    FormInput.Rule(e3, "address", noAddress, "Address is required", false, "")
  }

  /** Each field's entry depends on its own checks only, and no other key is set. */
  lemma ErrorsOfByField(noCompany: bool, noEmail: bool, badEmail: bool, noMobile: bool, badMobile: bool,
                        noAddress: bool)
    ensures var e := ErrorsOf(noCompany, noEmail, badEmail, noMobile, badMobile, noAddress);
      && e.Keys <= FieldNames
      && ("companyName" in e <==> noCompany)
      && ("companyName" in e ==> e["companyName"] == "Company name is required")
      && ("email" in e <==> noEmail || badEmail)
      && ("email" in e ==> e["email"] == if noEmail then "Email is required" else "Invalid email format")
      && ("mobile" in e <==> noMobile || badMobile)
      && ("mobile" in e ==> e["mobile"] == if noMobile then "Mobile number is required" else "Invalid mobile number format")
      && ("address" in e <==> noAddress)
      && ("address" in e ==> e["address"] == "Address is required")
  {
  }

  /** Ten digits survive only from a number that is not all white space. */
  lemma TenDigitsNotBlank(m: string)
    requires Patterns.TenDigits(Patterns.RemoveSpacesAndHyphens(m))
    ensures Trim(m) != ""
  {
    TrimEmptyIffBlank(m);
    if Blank(m) {
      Seqs.FilterNone(m, (c: char) => !IsSpace(c) && c != '-');
    }
  }

  /** When each field has an error, and what it says. */
  lemma ProfileErrorsByField(fields: map<string, string>)
    requires FieldNames <= fields.Keys
    ensures ProfileErrors(fields).Keys <= FieldNames
    ensures "companyName" in ProfileErrors(fields) <==> Trim(fields["companyName"]) == ""
    ensures "companyName" in ProfileErrors(fields) ==> ProfileErrors(fields)["companyName"] == "Company name is required"
    ensures "address" in ProfileErrors(fields) <==> Trim(fields["address"]) == ""
    ensures "address" in ProfileErrors(fields) ==> ProfileErrors(fields)["address"] == "Address is required"
    ensures "email" in ProfileErrors(fields) <==>
      (Trim(fields["email"]) == "" || !Patterns.EmailRegexMatches(fields["email"]))
    ensures "email" in ProfileErrors(fields) ==>
      (ProfileErrors(fields)["email"] == (if Trim(fields["email"]) == "" then "Email is required" else "Invalid email format"))
    ensures "mobile" in ProfileErrors(fields) <==> !Patterns.TenDigits(Patterns.RemoveSpacesAndHyphens(fields["mobile"]))
    ensures "mobile" in ProfileErrors(fields) ==>
      (ProfileErrors(fields)["mobile"] == (if Trim(fields["mobile"]) == "" then "Mobile number is required" else "Invalid mobile number format"))
  {
    Patterns.EmailScanIsRegex(fields["email"]);
    if Patterns.TenDigits(Patterns.RemoveSpacesAndHyphens(fields["mobile"])) {
      TenDigitsNotBlank(fields["mobile"]);
    }
    ErrorsOfByField(Trim(fields["companyName"]) == "",
                    Trim(fields["email"]) == "", !Patterns.MatchesEmail(fields["email"]),
                    Trim(fields["mobile"]) == "", !Patterns.TenDigits(Patterns.RemoveSpacesAndHyphens(fields["mobile"])),
                    Trim(fields["address"]) == "");
  }

  /** The errors `validatePasswordForm` finds (ProfilePage.jsx:101-121). */
  function PasswordErrors(pd: map<string, string>): map<string, string>
    requires PasswordNames <= pd.Keys
  {
    var e1 := FormInput.Rule(map[], "currentPassword", pd["currentPassword"] == "", "Current password is required", false, "");
    var e2 := FormInput.Rule(e1, "newPassword", pd["newPassword"] == "", "New password is required",
                             |pd["newPassword"]| < 8, "Password must be at least 8 characters");
    FormInput.Rule(e2, "confirmPassword", pd["confirmPassword"] == "", "Please confirm your password",
                   pd["newPassword"] != pd["confirmPassword"], "Passwords do not match")
  }

  /**
   * The password form passes exactly when the current password is given, the
   * new one has at least eight characters, and the confirmation repeats it.
   */
  lemma PasswordFormAccepted(pd: map<string, string>)
    requires PasswordNames <= pd.Keys
    ensures PasswordErrors(pd) == map[] <==>
      (pd["currentPassword"] != "" && |pd["newPassword"]| >= 8 && pd["confirmPassword"] == pd["newPassword"])
    ensures pd["confirmPassword"] != "" && pd["confirmPassword"] != pd["newPassword"] ==>
      (PasswordErrors(pd)["confirmPassword"] == "Passwords do not match")
  {
    if PasswordErrors(pd) == map[] {
      assert "currentPassword" !in PasswordErrors(pd);
      assert "newPassword" !in PasswordErrors(pd);
      assert "confirmPassword" !in PasswordErrors(pd);
    }
  }

  /** The `formData` object handed to `updateUser`. */
  function FormValue(fields: map<string, string>, socialLinks: map<string, string>): JsValue {
    var top: map<string, JsValue> := map k | k in fields :: Str(fields[k]);
    Obj(top["socialLinks" := Obj(map k | k in socialLinks :: Str(socialLinks[k]))])
  }

  class ProfileForm {
    var fields: map<string, string>
    var socialLinks: map<string, string>
    var passwordData: map<string, string>
    var errors: map<string, string>
    var isEditing: bool
    var showPasswordForm: bool

    ghost predicate Valid()
      reads this
    {
      FieldNames <= fields.Keys && PasswordNames <= passwordData.Keys
    }

    /** The page's initial state: the form filled from the user. */
    constructor (user: JsValue)
      ensures fields == UserFields(user) && socialLinks == UserSocialLinks(user)
      ensures passwordData == EmptyPasswords && errors == map[]
      ensures !isEditing && !showPasswordForm
      ensures Valid()
    {
      fields := UserFields(user);
      socialLinks := UserSocialLinks(user);
      passwordData := EmptyPasswords;
      errors := map[];
      isEditing := false;
      showPasswordForm := false;
    }

    /** `handleInputChange` (ProfilePage.jsx:34-58). */
    method HandleInputChange(name: string, value: string)
      requires Valid()
      modifies this
      ensures Valid()
      ensures StartsWith(name, "social.") ==>
        socialLinks == old(socialLinks)[FormInput.SocialKey(name) := value] && fields == old(fields)
      ensures !StartsWith(name, "social.") ==>
        fields == old(fields)[name := value] && socialLinks == old(socialLinks)
      ensures errors == FormInput.ClearError(old(errors), name)
      ensures passwordData == old(passwordData) && isEditing == old(isEditing) && showPasswordForm == old(showPasswordForm)
    {
      if StartsWith(name, "social.") {
        socialLinks := socialLinks[FormInput.SocialKey(name) := value];
      } else {
        fields := fields[name := value];
      }
      errors := FormInput.ClearError(errors, name);
    }

    /** `handlePasswordChange` (ProfilePage.jsx:60-73). */
    method HandlePasswordChange(name: string, value: string)
      requires Valid()
      modifies this
      ensures Valid()
      ensures passwordData == old(passwordData)[name := value]
      ensures errors == FormInput.ClearError(old(errors), name)
      ensures fields == old(fields) && socialLinks == old(socialLinks)
      ensures isEditing == old(isEditing) && showPasswordForm == old(showPasswordForm)
    {
      passwordData := passwordData[name := value];
      errors := FormInput.ClearError(errors, name);
    }

    /** `validateForm`, field by field. */
    method ValidateForm() returns (newErrors: map<string, string>)
      requires Valid()
      ensures newErrors == ProfileErrors(fields)
    {
      newErrors := map[];
      newErrors := FormInput.CheckField(newErrors, "companyName", Trim(fields["companyName"]) == "",
                                        "Company name is required", false, "");
      newErrors := FormInput.CheckField(newErrors, "email", Trim(fields["email"]) == "", "Email is required",
                                        !Patterns.MatchesEmail(fields["email"]), "Invalid email format");
      newErrors := FormInput.CheckField(newErrors, "mobile", Trim(fields["mobile"]) == "", "Mobile number is required",
                                        !Patterns.TenDigits(Patterns.RemoveSpacesAndHyphens(fields["mobile"])),
                                        "Invalid mobile number format");
      newErrors := FormInput.CheckField(newErrors, "address", Trim(fields["address"]) == "",
                                        "Address is required", false, "");
    }

    /** `validatePasswordForm`, field by field. */
    method ValidatePasswordForm() returns (newErrors: map<string, string>)
      requires Valid()
      ensures newErrors == PasswordErrors(passwordData)
    {
      newErrors := map[];
      newErrors := FormInput.CheckField(newErrors, "currentPassword", passwordData["currentPassword"] == "",
                                        "Current password is required", false, "");
      newErrors := FormInput.CheckField(newErrors, "newPassword", passwordData["newPassword"] == "",
                                        "New password is required", |passwordData["newPassword"]| < 8,
                                        "Password must be at least 8 characters");
      newErrors := FormInput.CheckField(newErrors, "confirmPassword", passwordData["confirmPassword"] == "",
                                        "Please confirm your password",
                                        passwordData["newPassword"] != passwordData["confirmPassword"],
                                        "Passwords do not match");
    }

    /**
     * `handleSaveProfile` (ProfilePage.jsx:123-134): `updateUser` gets the form
     * exactly when it has no errors; otherwise the errors are shown.
     */
    method HandleSaveProfile() returns (update: Option<JsValue>)
      requires Valid()
      modifies this
      ensures Valid()
      ensures update.Some? <==> ProfileErrors(fields) == map[]
      ensures update.Some? ==> update.value == FormValue(fields, socialLinks) && !isEditing && errors == old(errors)
      ensures update.None? ==> errors == ProfileErrors(fields) && isEditing == old(isEditing)
      ensures fields == old(fields) && socialLinks == old(socialLinks) && passwordData == old(passwordData)
      ensures showPasswordForm == old(showPasswordForm)
    {
      var newErrors := ValidateForm();
      if newErrors == map[] {
        update := Some(FormValue(fields, socialLinks));
        isEditing := false;
      } else {
        errors := newErrors;
        update := None;
      }
    }

    /**
     * `handleChangePassword` (ProfilePage.jsx:136-152): no request is made;
     * a valid form is cleared and closed, an invalid one shows its errors.
     */
    method HandleChangePassword() returns (changed: bool)
      requires Valid()
      modifies this
      ensures Valid()
      ensures changed <==> old(PasswordErrors(passwordData)) == map[]
      ensures changed ==> passwordData == EmptyPasswords && !showPasswordForm && errors == old(errors)
      ensures !changed ==> errors == old(PasswordErrors(passwordData)) && passwordData == old(passwordData)
                           && showPasswordForm == old(showPasswordForm)
      ensures fields == old(fields) && socialLinks == old(socialLinks) && isEditing == old(isEditing)
    {
      var newErrors := ValidatePasswordForm();
      if |newErrors| == 0 {
        passwordData := EmptyPasswords;
        showPasswordForm := false;
        changed := true;
      } else {
        errors := newErrors;
        changed := false;
      }
    }

    /** `handleCancel` (ProfilePage.jsx:154-169): the form is refilled from the user and the errors cleared. */
    method HandleCancel(user: JsValue)
      requires Valid()
      modifies this
      ensures Valid()
      ensures fields == UserFields(user) && socialLinks == UserSocialLinks(user)
      ensures !isEditing && errors == map[]
      ensures passwordData == old(passwordData) && showPasswordForm == old(showPasswordForm)
    {
      fields := UserFields(user);
      socialLinks := UserSocialLinks(user);
      isEditing := false;
      errors := map[];
    }
  }
}
