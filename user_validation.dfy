/** The user request schema: `{ body: { username, email, password, … } }`
    with a length bound on every field, the first three required and the
    rest optional. The email format check is a parameter (`isEmail`). */
module UserValidation {
  import opened Basics
  import opened JsValues

  /** Why a value was refused; lengths count characters. */
  datatype IssueCode = InvalidType | TooSmall(minimum: nat) | InvalidEmail | TooBig(maximum: nat)

  /** One refusal, located by its path from the validated object. */
  datatype Issue = Issue(path: seq<string>, code: IssueCode)

  /** One field of the body schema: a string of `minLength..maxLength`
      characters, in email format when `emailFormat`, and allowed to be
      absent unless `required`. */
  datatype FieldRule = FieldRule(name: string, required: bool, minLength: nat, emailFormat: bool, maxLength: nat)

  /** The body schema, field by field, in declaration order. */
  const UserBodyRules: seq<FieldRule> := [
    FieldRule("username", true, 1, false, 50),
    FieldRule("email", true, 0, true, 100),
    FieldRule("password", true, 8, false, 255),
    FieldRule("first_name", false, 0, false, 50),
    FieldRule("last_name", false, 0, false, 50),
    FieldRule("phone_number", false, 0, false, 20),
    FieldRule("address_line1", false, 0, false, 100),
    FieldRule("address_line2", false, 0, false, 100),
    FieldRule("city", false, 0, false, 50),
    FieldRule("state_province", false, 0, false, 50),
    FieldRule("postal_code", false, 0, false, 10),
    FieldRule("country", false, 0, false, 50)
  ]

  /** What one field rule accepts, stated directly. */
  predicate FieldAccepts(rule: FieldRule, v: JsValue, isEmail: string -> bool) {
    || (v.Undefined? && !rule.required)
    || (v.Str? && rule.minLength <= |v.s| <= rule.maxLength && (rule.emailFormat ==> isEmail(v.s)))
  }

  /** The rule holds of the named property of `props`. */
  predicate RuleAccepts(rule: FieldRule, props: Props, isEmail: string -> bool) {
    FieldAccepts(rule, Get(props, rule.name), isEmail)
  }

  /** The issues one field raises: a missing required field or a non-string
      stops at the type check; a string runs every check in order. */
  function FieldIssues(rule: FieldRule, v: JsValue, isEmail: string -> bool): (r: seq<IssueCode>)
    ensures r == [] <==> FieldAccepts(rule, v, isEmail)
  {
    match v
    case Undefined => if rule.required then [InvalidType] else []
    case Str(s) =>
      (if |s| < rule.minLength then [TooSmall(rule.minLength)] else [])
      + (if rule.emailFormat && !isEmail(s) then [InvalidEmail] else [])
      + (if |s| > rule.maxLength then [TooBig(rule.maxLength)] else [])
    case _ => [InvalidType]
  }

  /** All issues the rules raise on the properties of `body`, each under
      the path `["body", field]`. */
  function BodyIssues(rules: seq<FieldRule>, props: Props, isEmail: string -> bool): (r: seq<Issue>)
    ensures r == [] <==> forall i :: 0 <= i < |rules| ==> RuleAccepts(rules[i], props, isEmail)
    ensures forall j :: 0 <= j < |r| ==>
      |r[j].path| == 2 && r[j].path[0] == "body" && exists i :: 0 <= i < |rules| && rules[i].name == r[j].path[1]
  {
    if rules == [] then []
    else
      var codes := FieldIssues(rules[0], Get(props, rules[0].name), isEmail);
      var here := seq(|codes|, k requires 0 <= k < |codes| => Issue(["body", rules[0].name], codes[k]));
      var rest := BodyIssues(rules[1..], props, isEmail);
      assert forall i :: 1 <= i < |rules| ==> rules[i] == rules[1..][i - 1];
      here + rest
  }

  /** The fields the parsed body keeps: the schema fields given as strings. */
  function BodyOutput(rules: seq<FieldRule>, props: Props): (out: map<string, string>)
    ensures forall k :: k in out ==> Get(props, k).Str? && out[k] == Get(props, k).s
    ensures forall i :: 0 <= i < |rules| && Get(props, rules[i].name).Str? ==> rules[i].name in out
    ensures forall k :: k in out ==> exists i :: 0 <= i < |rules| && rules[i].name == k
  {
    if rules == [] then map[]
    else
      var rest := BodyOutput(rules[1..], props);
      assert forall i :: 1 <= i < |rules| ==> rules[i] == rules[1..][i - 1];
      var v := Get(props, rules[0].name);
      if v.Str? then rest[rules[0].name := v.s] else rest
  }

  /** Parsing the request object `{ body, … }` against the schema: the kept
      body fields, or every issue found. Properties outside the schema are
      dropped, not refused. */
  function ValidateUser(input: JsValue, isEmail: string -> bool): (r: Result<map<string, string>, seq<Issue>>)
    ensures r.Err? ==> r.error != []
  {
    if !input.Obj? then Err([Issue([], InvalidType)])
    else
      var body := Get(input.props, "body");
      if !body.Obj? then Err([Issue(["body"], InvalidType)])
      else
        var issues := BodyIssues(UserBodyRules, body.props, isEmail);
        if issues == [] then Ok(BodyOutput(UserBodyRules, body.props)) else Err(issues)
  }

  /** A required string field within `lo..hi` characters. */
  predicate RequiredText(v: JsValue, lo: nat, hi: nat) {
    v.Str? && lo <= |v.s| <= hi
  }

  /** An optional string field of at most `hi` characters. */
  predicate OptionalText(v: JsValue, hi: nat) {
    v.Undefined? || (v.Str? && |v.s| <= hi)
  }

  /** The body the schema accepts, one conjunct per schema line. */
  predicate WellFormedUserBody(body: Props, isEmail: string -> bool) {
    && RequiredText(Get(body, "username"), 1, 50)
    && RequiredText(Get(body, "email"), 0, 100) && isEmail(Get(body, "email").s)
    && RequiredText(Get(body, "password"), 8, 255)
    && OptionalText(Get(body, "first_name"), 50)
    && OptionalText(Get(body, "last_name"), 50)
    && OptionalText(Get(body, "phone_number"), 20)
    && OptionalText(Get(body, "address_line1"), 100)
    && OptionalText(Get(body, "address_line2"), 100)
    && OptionalText(Get(body, "city"), 50)
    && OptionalText(Get(body, "state_province"), 50)
    && OptionalText(Get(body, "postal_code"), 10)
    && OptionalText(Get(body, "country"), 50)
  }

  /** The three required fields' rules say what their schema lines say. */
  lemma RequiredRulesMeaning(body: Props, isEmail: string -> bool)
    ensures RuleAccepts(UserBodyRules[0], body, isEmail) <==> RequiredText(Get(body, "username"), 1, 50)
    ensures RuleAccepts(UserBodyRules[1], body, isEmail) <==> RequiredText(Get(body, "email"), 0, 100) && isEmail(Get(body, "email").s)
    ensures RuleAccepts(UserBodyRules[2], body, isEmail) <==> RequiredText(Get(body, "password"), 8, 255)
  {
  }

  /** The first group of optional fields' rules say what their schema lines say. */
  lemma NameRulesMeaning(body: Props, isEmail: string -> bool)
    ensures RuleAccepts(UserBodyRules[3], body, isEmail) <==> OptionalText(Get(body, "first_name"), 50)
    ensures RuleAccepts(UserBodyRules[4], body, isEmail) <==> OptionalText(Get(body, "last_name"), 50)
    ensures RuleAccepts(UserBodyRules[5], body, isEmail) <==> OptionalText(Get(body, "phone_number"), 20)
    ensures RuleAccepts(UserBodyRules[6], body, isEmail) <==> OptionalText(Get(body, "address_line1"), 100)
  {
  }

  /** The remaining optional fields' rules say what their schema lines say. */
  lemma AddressRulesMeaning(body: Props, isEmail: string -> bool)
    ensures RuleAccepts(UserBodyRules[7], body, isEmail) <==> OptionalText(Get(body, "address_line2"), 100)
    ensures RuleAccepts(UserBodyRules[8], body, isEmail) <==> OptionalText(Get(body, "city"), 50)
    ensures RuleAccepts(UserBodyRules[9], body, isEmail) <==> OptionalText(Get(body, "state_province"), 50)
    ensures RuleAccepts(UserBodyRules[10], body, isEmail) <==> OptionalText(Get(body, "postal_code"), 10)
    ensures RuleAccepts(UserBodyRules[11], body, isEmail) <==> OptionalText(Get(body, "country"), 50)
  {
  }

  /** The rule table says the same as the schema written field by field. */
  lemma RulesAcceptIff(body: Props, isEmail: string -> bool)
    ensures (forall i :: 0 <= i < |UserBodyRules| ==> RuleAccepts(UserBodyRules[i], body, isEmail))
      <==> WellFormedUserBody(body, isEmail)
  {
    RequiredRulesMeaning(body, isEmail);
    NameRulesMeaning(body, isEmail);
    AddressRulesMeaning(body, isEmail);
    if WellFormedUserBody(body, isEmail) {
      forall i | 0 <= i < |UserBodyRules| ensures RuleAccepts(UserBodyRules[i], body, isEmail) {
        assert i in {0, 1, 2, 3, 4, 5, 6, 7, 8, 9, 10, 11};
      }
    }
  }

  /** The request is accepted exactly when it is an object whose `body` is an
      object meeting every bound. */
  lemma ValidateUserAccepts(input: JsValue, isEmail: string -> bool)
    ensures ValidateUser(input, isEmail).Ok? <==>
      input.Obj? && Get(input.props, "body").Obj? && WellFormedUserBody(Get(input.props, "body").props, isEmail)
  {
    if input.Obj? && Get(input.props, "body").Obj? {
      RulesAcceptIff(Get(input.props, "body").props, isEmail);
    }
  }

  /** On acceptance the three required fields are kept, each with the string
      the request gave, and nothing outside the request's strings is kept. */
  lemma AcceptedKeepsRequired(input: JsValue, isEmail: string -> bool)
    requires ValidateUser(input, isEmail).Ok?
    ensures var out := ValidateUser(input, isEmail).value;
      && input.Obj?
      && var body := Get(input.props, "body").props;
      && "username" in out && out["username"] == Get(body, "username").s
      && "email" in out && out["email"] == Get(body, "email").s
      && "password" in out && out["password"] == Get(body, "password").s
      && 1 <= |out["username"]| <= 50 && |out["email"]| <= 100 && 8 <= |out["password"]| <= 255
  {
    var body := Get(input.props, "body").props;
    var out := BodyOutput(UserBodyRules, body);
    assert ValidateUser(input, isEmail).value == out;
    assert BodyIssues(UserBodyRules, body, isEmail) == [];
    assert RuleAccepts(UserBodyRules[0], body, isEmail);
    assert RuleAccepts(UserBodyRules[1], body, isEmail);
    assert RuleAccepts(UserBodyRules[2], body, isEmail);
    RequiredRulesMeaning(body, isEmail);
    assert UserBodyRules[0].name == "username" && UserBodyRules[1].name == "email" && UserBodyRules[2].name == "password";
  }

  /** Looking up a name other than the appended property's sees the same value. */
  lemma {:induction false} GetAppendOther(props: Props, k: string, v: JsValue, name: string)
    requires name != k
    ensures Get(props + [(k, v)], name) == Get(props, name)
  {
    if props != [] {
      assert (props + [(k, v)])[1..] == props[1..] + [(k, v)];
      GetAppendOther(props[1..], k, v, name);
    }
  }

  /** A body property that is not a schema field changes nothing: the
      verdict, the issues and the kept fields are the same without it. */
  lemma UnknownPropertyIgnored(body: Props, k: string, v: JsValue, isEmail: string -> bool)
    requires forall i :: 0 <= i < |UserBodyRules| ==> UserBodyRules[i].name != k
    ensures var withExtra := Obj([("body", Obj(body + [(k, v)]))]);
      ValidateUser(withExtra, isEmail) == ValidateUser(Obj([("body", Obj(body))]), isEmail)
  {
    forall name | name in RuleNames(UserBodyRules)
      ensures Get(body + [(k, v)], name) == Get(body, name)
    {
      GetAppendOther(body, k, v, name);
    }
    SameLookupsSameIssues(UserBodyRules, body + [(k, v)], body, isEmail);
  }

  /** The field names of a rule list. */
  function RuleNames(rules: seq<FieldRule>): set<string> {
    set i | 0 <= i < |rules| :: rules[i].name
  }

  /** Two bodies that agree on every rule's field give the same issues and
      the same kept fields. */
  lemma {:induction false} SameLookupsSameIssues(rules: seq<FieldRule>, a: Props, b: Props, isEmail: string -> bool)
    requires forall name :: name in RuleNames(rules) ==> Get(a, name) == Get(b, name)
    ensures BodyIssues(rules, a, isEmail) == BodyIssues(rules, b, isEmail)
    ensures BodyOutput(rules, a) == BodyOutput(rules, b)
  {
    if rules != [] {
      assert rules[0].name in RuleNames(rules);
      assert RuleNames(rules[1..]) <= RuleNames(rules) by {
        forall name | name in RuleNames(rules[1..]) ensures name in RuleNames(rules) {
          var i :| 0 <= i < |rules[1..]| && rules[1..][i].name == name;
          assert rules[i + 1].name == name;
        }
      }
      SameLookupsSameIssues(rules[1..], a, b, isEmail);
    }
  }
}
