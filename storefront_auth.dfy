/** The storefront's account calls: sign-up and login from their forms
    (host-client/src/app/_api/auth/signup.ts, login.ts), and the response
    checks of the product list and profile calls made with the account
    (auth/getProducts.ts, auth/getProfile.ts). */
module StorefrontAuth {
  import opened Wrappers
  import opened Json
  import opened Zod
  import opened Storefront
  import Text

  // ---------------------------------------------------------------------------
  // Schemas

  const UsernameMinLength := MinLength(2, "Username must be at least 2 characters long")
  const PasswordMinLength := MinLength(2, "Password must be at least 2 characters long")
  const PasswordMaxLength := MaxLength(64, "Password must be no more than 64 characters long")
  const NameMinLength := MinLength(2, "Product name must be at least 2 characters long")
  const PricePositive := Positive("Price must be a positive number")

  const PasswordMismatch := "Passwords do not match!"
  const Roles := ["user", "admin"]

  /** The credentials schema, written out identically in sign-up and login. */
  const CredentialsSchema := ZObject([
    Field("username", ZString([UsernameMinLength]), false),
    Field("password", ZString([PasswordMinLength, PasswordMaxLength]), false)])

  /** The product schema of the account's product list: no quantity. */
  const AuthProductSchema := ZObject([
    Field("_id", ZString([]), false),
    Field("name", ZString([NameMinLength]), false),
    Field("price", ZNumber([PricePositive]), false),
    Field("description", ZString([]), true),
    Field("__v", ZNumber([]), true)])

  const AuthProductsSchema := ZArray(AuthProductSchema)

  const ProfileSchema := ZObject([
    Field("_id", ZString([]), false),
    Field("username", ZString([UsernameMinLength]), false),
    Field("role", ZEnum(Roles), false)])

  // ---------------------------------------------------------------------------
  // What the schemas admit

  lemma CredentialsAccepted(j: Json)
    ensures Accepts(CredentialsSchema, j) <==>
      j.JObj? && StringAt(j.entries, "username", 2) && StringBetweenAt(j.entries, "password", 2, 64)
  {
    if j.JObj? {
      var s, es := CredentialsSchema, j.entries;
      assert FieldsAccept(s, es, 2);
      assert FieldsAccept(s, es, 1) <==> StringBetweenAt(es, "password", 2, 64) && FieldsAccept(s, es, 2) by {
        LengthBetweenField("password", 2, PasswordMinLength.message, 64, PasswordMaxLength.message, es);
      }
      assert FieldsAccept(s, es, 0) <==> StringAt(es, "username", 2) && FieldsAccept(s, es, 1) by {
        MinLengthField("username", 2, UsernameMinLength.message, es);
      }
    }
  }

  lemma AuthProductAccepted(j: Json)
    ensures Accepts(AuthProductSchema, j) <==>
      j.JObj? && StringAt(j.entries, "_id", 0) && StringAt(j.entries, "name", 2) && PositiveAt(j.entries, "price")
      && OptionalStringAt(j.entries, "description") && OptionalNumberAt(j.entries, "__v")
  {
    if j.JObj? {
      var s, es := AuthProductSchema, j.entries;
      assert FieldsAccept(s, es, 5);
      assert FieldsAccept(s, es, 4) <==> OptionalNumberAt(es, "__v") && FieldsAccept(s, es, 5) by {
        NumberField("__v", es);
      }
      assert FieldsAccept(s, es, 3) <==> OptionalStringAt(es, "description") && FieldsAccept(s, es, 4) by {
        StringField("description", true, es);
      }
      assert FieldsAccept(s, es, 2) <==> PositiveAt(es, "price") && FieldsAccept(s, es, 3) by {
        PositiveField("price", PricePositive.message, false, es);
      }
      assert FieldsAccept(s, es, 1) <==> StringAt(es, "name", 2) && FieldsAccept(s, es, 2) by {
        MinLengthField("name", 2, NameMinLength.message, es);
      }
      assert FieldsAccept(s, es, 0) <==> StringAt(es, "_id", 0) && FieldsAccept(s, es, 1) by {
        StringField("_id", false, es);
      }
    }
  }

  lemma ProfileAccepted(j: Json)
    ensures Accepts(ProfileSchema, j) <==>
      j.JObj? && StringAt(j.entries, "_id", 0) && StringAt(j.entries, "username", 2) && OneOfAt(j.entries, "role", Roles)
  {
    if j.JObj? {
      var s, es := ProfileSchema, j.entries;
      assert FieldsAccept(s, es, 3);
      assert FieldsAccept(s, es, 2) <==> OneOfAt(es, "role", Roles) && FieldsAccept(s, es, 3) by {
        EnumField("role", Roles, es);
      }
      assert FieldsAccept(s, es, 1) <==> StringAt(es, "username", 2) && FieldsAccept(s, es, 2) by {
        MinLengthField("username", 2, UsernameMinLength.message, es);
      }
      assert FieldsAccept(s, es, 0) <==> StringAt(es, "_id", 0) && FieldsAccept(s, es, 1) by {
        StringField("_id", false, es);
      }
    }
  }

  // ---------------------------------------------------------------------------
  // Sign-up and login

  /** `{ username, password }`, the body both calls check and send. */
  function CredentialsBody(username: Option<string>, password: Option<string>): (j: Json)
    ensures j.JObj? && Keys(j.entries) == ["username", "password"]
  {
    JObj([Entry("username", FormText(username)), Entry("password", FormText(password))])
  }

  /** Reading the two body entries back. */
  lemma CredentialsBodyFields(username: Option<string>, password: Option<string>)
    ensures Lookup(CredentialsBody(username, password).entries, "username") == Some(FormText(username))
    ensures Lookup(CredentialsBody(username, password).entries, "password") == Some(FormText(password))
  {
    var es := CredentialsBody(username, password).entries;
    assert Lookup(es, "password") == Lookup(es[1..], "password") by {
      assert "password" != "username";
    }
  }

  /** Usernames of at least two and passwords of two to 64 UTF-16 code
      units (JavaScript's `length`), bounds included. */
  predicate CredentialsValid(username: Option<string>, password: Option<string>) {
    username.Some? && Text.Utf16Length(username.value) >= 2 && password.Some? && 2 <= Text.Utf16Length(password.value) <= 64
  }

  lemma CredentialsRule(username: Option<string>, password: Option<string>)
    ensures Accepts(CredentialsSchema, CredentialsBody(username, password)) <==> CredentialsValid(username, password)
  {
    CredentialsBodyFields(username, password);
    CredentialsAccepted(CredentialsBody(username, password));
  }

  /** `loginHandler(formData)`: the credentials are checked, then posted. */
  function Login(endpoint: string, username: Option<string>, password: Option<string>): Result<Request> {
    SendChecked(CredentialsSchema, CredentialsBody(username, password), ValidationFailed, Post, endpoint)
  }

  /** Login sends one POST of exactly username and password when both are
      valid, and nothing otherwise. */
  lemma LoginRules(endpoint: string, username: Option<string>, password: Option<string>)
    ensures Login(endpoint, username, password).Ok? <==> CredentialsValid(username, password)
    ensures Login(endpoint, username, password).Ok? ==>
      Login(endpoint, username, password).value == Request(Post, endpoint, Some(CredentialsBody(username, password)))
  {
    CredentialsRule(username, password);
  }

  /** The password's length bounds are inclusive: 2 and 64 code units pass,
      1 and 65 do not. */
  lemma PasswordBoundsInclusive(endpoint: string, username: string, password: string)
    requires Text.Utf16Length(username) >= 2
    ensures Text.Utf16Length(password) == 2 || Text.Utf16Length(password) == 64 ==> Login(endpoint, Some(username), Some(password)).Ok?
    ensures Text.Utf16Length(password) == 1 || Text.Utf16Length(password) == 65 ==> Login(endpoint, Some(username), Some(password)).Err?
  {
    LoginRules(endpoint, Some(username), Some(password));
  }

  /** Lengths are JavaScript's: a single emoji is two code units, so it is a
      long-enough password. */
  lemma EmojiPasswordAccepted(endpoint: string)
    ensures Login(endpoint, Some("ab"), Some("\U{1F600}")).Ok?
  {
    Text.EmojiIsTwoCodeUnits();
    assert Text.Utf16Length("ab") == 2;
    LoginRules(endpoint, Some("ab"), Some("\U{1F600}"));
  }

  /** `signUpHandler(formData)`: the credentials are checked first, then the
      confirmation is compared with the password; only then is
      `{ username, password }` posted. */
  function SignUp(endpoint: string, username: Option<string>, password: Option<string>, confirm: Option<string>)
    : Result<Request>
  {
    var checked := SendChecked(CredentialsSchema, CredentialsBody(username, password), ValidationFailed, Post, endpoint);
    if checked.Err? then checked
    else if password != confirm then Err(PasswordMismatch)
    else checked
  }

  /** Sign-up succeeds exactly when the credentials are valid and the
      confirmation equals the password; the request is then the login's. A
      field error is reported even when the passwords also differ, and a
      mismatch alone gives 'Passwords do not match!'. */
  lemma SignUpRules(endpoint: string, username: Option<string>, password: Option<string>, confirm: Option<string>)
    ensures SignUp(endpoint, username, password, confirm).Ok? <==> CredentialsValid(username, password) && confirm == password
    ensures SignUp(endpoint, username, password, confirm).Ok? ==>
      SignUp(endpoint, username, password, confirm).value == Request(Post, endpoint, Some(CredentialsBody(username, password)))
    ensures !CredentialsValid(username, password) ==> SignUp(endpoint, username, password, confirm) == Login(endpoint, username, password)
    ensures CredentialsValid(username, password) && confirm != password ==>
      SignUp(endpoint, username, password, confirm) == Err(PasswordMismatch)
  {
    CredentialsRule(username, password);
  }

  /** The confirmation is never checked for length: it matters only through
      its equality with the password. */
  lemma ConfirmOnlyCompared(endpoint: string, username: Option<string>, password: Option<string>,
                            confirm1: Option<string>, confirm2: Option<string>)
    requires (confirm1 == password) == (confirm2 == password)
    ensures SignUp(endpoint, username, password, confirm1) == SignUp(endpoint, username, password, confirm2)
  {
  }

  // ---------------------------------------------------------------------------
  // Response checks

  function CheckAuthProducts(response: Json): Result<Json> {
    Validate(AuthProductsSchema, response, ResponseValidationFailed)
  }

  /** An accepted product list is an array of products with a string `_id`,
      a name of at least two UTF-16 code units and a positive price; the data handed
      back has no `quantity`, even where the response carried one. */
  lemma AcceptedAuthProducts(response: Json)
    ensures CheckAuthProducts(response).Ok? ==>
      response.JArr? && forall k :: 0 <= k < |response.items| ==>
        var p := response.items[k];
        p.JObj? && StringAt(p.entries, "_id", 0) && StringAt(p.entries, "name", 2) && PositiveAt(p.entries, "price")
    ensures CheckAuthProducts(response).Ok? ==>
      var data := CheckAuthProducts(response).value;
      data.JArr? && |data.items| == |response.items|
      && forall k :: 0 <= k < |data.items| ==> data.items[k].JObj? && "quantity" !in Keys(data.items[k].entries)
    ensures !response.JArr? ==> CheckAuthProducts(response) == Err(ResponseValidationFailed)
  {
    if Accepts(AuthProductsSchema, response) {
      AcceptedAuthProductFields(response);
      AuthProductsLoseQuantity(response);
    }
    if !response.JArr? {
      WrongShapeGivesFallback(AuthProductsSchema, response, ResponseValidationFailed);
    }
  }

  lemma AcceptedAuthProductFields(response: Json)
    requires Accepts(AuthProductsSchema, response)
    ensures response.JArr? && forall k :: 0 <= k < |response.items| ==>
      var p := response.items[k];
      p.JObj? && StringAt(p.entries, "_id", 0) && StringAt(p.entries, "name", 2) && PositiveAt(p.entries, "price")
  {
    ArrayAccepts(AuthProductSchema, response);
    forall k | 0 <= k < |response.items|
      ensures var p := response.items[k];
        p.JObj? && StringAt(p.entries, "_id", 0) && StringAt(p.entries, "name", 2) && PositiveAt(p.entries, "price")
    {
      AuthProductAccepted(response.items[k]);
    }
  }

  lemma AuthProductsLoseQuantity(response: Json)
    requires Accepts(AuthProductsSchema, response)
    ensures var data := Parse(AuthProductsSchema, response, []).data;
      data.JArr? && |data.items| == |response.items|
      && forall k :: 0 <= k < |data.items| ==> data.items[k].JObj? && "quantity" !in Keys(data.items[k].entries)
  {
    ArrayAccepts(AuthProductSchema, response);
    forall k | 0 <= k < |response.items| ensures response.items[k].JObj? {
      ObjectAccepts(AuthProductSchema.fields, response.items[k]);
    }
    var fs := AuthProductSchema.fields;
    assert fs[0].key != "quantity" && fs[1].key != "quantity" && fs[2].key != "quantity";
    assert fs[3].key != "quantity" && fs[4].key != "quantity";
    ArrayStripsUnknownKeys(fs, response, "quantity");
  }

  function CheckProfile(response: Json): Result<Json> {
    Validate(ProfileSchema, response, ResponseValidationFailed)
  }

  /** An accepted profile has a string `_id`, a username of at least two UTF-16
      code units and the role exactly 'user' or 'admin'; the data handed back
      is the parsed profile. */
  lemma AcceptedProfile(response: Json)
    ensures CheckProfile(response).Ok? <==>
      response.JObj? && StringAt(response.entries, "_id", 0) && StringAt(response.entries, "username", 2)
      && OneOfAt(response.entries, "role", Roles)
    ensures CheckProfile(response).Ok? ==> CheckProfile(response).value == Parse(ProfileSchema, response, []).data
    ensures !response.JObj? ==> CheckProfile(response) == Err(ResponseValidationFailed)
  {
    ProfileAccepted(response);
    if !response.JObj? {
      WrongShapeGivesFallback(ProfileSchema, response, ResponseValidationFailed);
    }
  }
}
