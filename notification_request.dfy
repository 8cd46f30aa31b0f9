/**
 * The express-validator rule lists of the two `/users` routes and the
 * `validateResult` middleware that turns failed rules into a 400 reply.
 */
module NotificationRequest {
  import opened Http

  /** A field of the JSON request body as the validators see it. */
  datatype FieldValue = Missing | Text(text: string) | List(items: seq<string>)

  /** The request body fields the routes read. */
  datatype RequestBody = RequestBody(
    usersIDs: FieldValue,
    title: FieldValue,
    body: FieldValue,
    firebaseKeyUrl: FieldValue,
    databaseURL: FieldValue,
    databaseRef: FieldValue)

  datatype Field = UsersIDs | Title | Body | FirebaseKeyUrl | DatabaseURL | DatabaseRef

  /** `isArray({ min })` and `notEmpty()`. */
  datatype Check = IsArray(min: nat) | NotEmpty

  /** `body(field).<check>.withMessage(message)` */
  datatype Rule = Rule(field: Field, check: Check, message: string)

  /** The name a field has in the request body, reported as the error's path. */
  function Path(f: Field): (path: string) {
    match f
    case UsersIDs => "usersIDs"
    case Title => "title"
    case Body => "body"
    case FirebaseKeyUrl => "firebaseKeyUrl"
    case DatabaseURL => "databaseURL"
    case DatabaseRef => "databaseRef"
  }

  function FieldOf(req: RequestBody, f: Field): (v: FieldValue) {
    match f
    case UsersIDs => req.usersIDs
    case Title => req.title
    case Body => req.body
    case FirebaseKeyUrl => req.firebaseKeyUrl
    case DatabaseURL => req.databaseURL
    case DatabaseRef => req.databaseRef
  }

  /** A present value with content: a non-empty string or a list with an element. */
  predicate IsNotEmpty(v: FieldValue) {
    match v
    case Missing => false
    case Text(s) => s != ""
    case List(items) => items != []
  }

  /** An array with at least `min` elements. */
  predicate IsArrayOf(v: FieldValue, min: nat) {
    v.List? && |v.items| >= min
  }

  predicate Passes(rule: Rule, req: RequestBody) {
    var v := FieldOf(req, rule.field);
    match rule.check
    case IsArray(min) => IsArrayOf(v, min)
    case NotEmpty => IsNotEmpty(v)
  }

  /** `validateUsersForSender()` */
  function SenderRules(): (rules: seq<Rule>) {
    [ Rule(UsersIDs, IsArray(1), "usersIDs is required"),
      Rule(Title, NotEmpty, "Title is required"),
      Rule(Body, NotEmpty, "Body is required"),
      Rule(FirebaseKeyUrl, NotEmpty, "firebaseKeyUrl is required"),
      Rule(DatabaseURL, NotEmpty, "databaseURL is required"),
      Rule(DatabaseRef, NotEmpty, "databaseRef is required") ]
  }

  /** `validateUsersForRemover()` */
  function RemoverRules(): (rules: seq<Rule>) {
    [ Rule(UsersIDs, IsArray(1), "usersIDs is required"),
      Rule(FirebaseKeyUrl, NotEmpty, "firebaseKeyUrl is required"),
      Rule(DatabaseURL, NotEmpty, "databaseURL is required"),
      Rule(DatabaseRef, NotEmpty, "databaseRef is required") ]
  }

  function ErrorOf(rule: Rule): (e: ValidationError) {
    ValidationError(Path(rule.field), rule.message)
  }

  /** `validationResult(req).array()`: one error per failed rule, in rule order. */
  function Errors(rules: seq<Rule>, req: RequestBody): (errors: seq<ValidationError>) {
    if rules == [] then []
    else (if Passes(rules[0], req) then [] else [ErrorOf(rules[0])]) + Errors(rules[1..], req)
  }

  function SenderErrors(req: RequestBody): (errors: seq<ValidationError>) {
    Errors(SenderRules(), req)
  }

  function RemoverErrors(req: RequestBody): (errors: seq<ValidationError>) {
    Errors(RemoverRules(), req)
  }

  /** What `validateResult` does: reply 400, or call `next()` and write nothing. */
  datatype Gate = Next | Reply(response: HttpResponse)

  /** `validateResult`: any error stops the request with 400 and the error list. */
  function ValidateResult(errors: seq<ValidationError>): (g: Gate)
    ensures g.Next? <==> errors == []
    ensures g.Reply? ==> g.response.status == 400 && !g.response.body.Succeeded?
                         && g.response.body.Rejected? && g.response.body.errors == errors
                         && |g.response.body.errors| > 0
  {
    if errors != [] then Reply(BadRequest(errors)) else Next
  }

  /** An error is reported exactly for each rule the request fails. */
  lemma {:induction false} ErrorsReportFailedRules(rules: seq<Rule>, req: RequestBody, e: ValidationError)
    ensures e in Errors(rules, req) <==>
      exists k :: 0 <= k < |rules| && !Passes(rules[k], req) && e == ErrorOf(rules[k])
    decreases |rules|
  {
    if rules != [] {
      ErrorsReportFailedRules(rules[1..], req, e);
      if e in Errors(rules[1..], req) {
        var k :| 0 <= k < |rules[1..]| && !Passes(rules[1..][k], req) && e == ErrorOf(rules[1..][k]);
        assert rules[k + 1] == rules[1..][k];
      }
      if exists k :: 0 <= k < |rules| && !Passes(rules[k], req) && e == ErrorOf(rules[k]) {
        var k :| 0 <= k < |rules| && !Passes(rules[k], req) && e == ErrorOf(rules[k]);
        if k > 0 {
          assert rules[1..][k - 1] == rules[k];
        }
      }
    }
  }

  /** The error list is empty exactly when the request passes every rule. */
  lemma {:induction false} ErrorsEmptyIffAllPass(rules: seq<Rule>, req: RequestBody)
    ensures Errors(rules, req) == [] <==> forall k :: 0 <= k < |rules| ==> Passes(rules[k], req)
    decreases |rules|
  {
    if rules != [] {
      ErrorsEmptyIffAllPass(rules[1..], req);
      if forall k :: 0 <= k < |rules[1..]| ==> Passes(rules[1..][k], req) {
        forall k | 0 < k < |rules| ensures Passes(rules[k], req) {
          assert rules[k] == rules[1..][k - 1];
        }
      }
    }
  }

  /** The sender route passes exactly when `usersIDs` is a non-empty array and the five strings are non-empty. */
  lemma SenderValid(req: RequestBody)
    ensures SenderErrors(req) == [] <==>
      && IsArrayOf(req.usersIDs, 1)
      && IsNotEmpty(req.title)
      && IsNotEmpty(req.body)
      && IsNotEmpty(req.firebaseKeyUrl)
      && IsNotEmpty(req.databaseURL)
      && IsNotEmpty(req.databaseRef)
  {
    var rules := SenderRules();
    ErrorsEmptyIffAllPass(rules, req);
    assert Passes(rules[0], req) <==> IsArrayOf(req.usersIDs, 1);
    assert Passes(rules[1], req) <==> IsNotEmpty(req.title);
    assert Passes(rules[2], req) <==> IsNotEmpty(req.body);
    assert Passes(rules[3], req) <==> IsNotEmpty(req.firebaseKeyUrl);
    assert Passes(rules[4], req) <==> IsNotEmpty(req.databaseURL);
    assert Passes(rules[5], req) <==> IsNotEmpty(req.databaseRef);
  }

  /** The remover route needs the same fields minus `title` and `body`. */
  lemma RemoverValid(req: RequestBody)
    ensures RemoverErrors(req) == [] <==>
      && IsArrayOf(req.usersIDs, 1)
      && IsNotEmpty(req.firebaseKeyUrl)
      && IsNotEmpty(req.databaseURL)
      && IsNotEmpty(req.databaseRef)
  {
    var rules := RemoverRules();
    ErrorsEmptyIffAllPass(rules, req);
    assert Passes(rules[0], req) <==> IsArrayOf(req.usersIDs, 1);
    assert Passes(rules[1], req) <==> IsNotEmpty(req.firebaseKeyUrl);
    assert Passes(rules[2], req) <==> IsNotEmpty(req.databaseURL);
    assert Passes(rules[3], req) <==> IsNotEmpty(req.databaseRef);
  }

  /** No two rules of the list check the same field. */
  predicate DistinctFields(rules: seq<Rule>) {
    forall i, j :: 0 <= i < j < |rules| ==> rules[i].field != rules[j].field
  }

  /** In a list without repeated fields, a rule's own error is reported exactly when that rule fails. */
  lemma ErrorPerRule(rules: seq<Rule>, req: RequestBody, k: nat)
    requires DistinctFields(rules) && k < |rules|
    ensures ErrorOf(rules[k]) in Errors(rules, req) <==> !Passes(rules[k], req)
  {
    ErrorsReportFailedRules(rules, req, ErrorOf(rules[k]));
    if ErrorOf(rules[k]) in Errors(rules, req) {
      var j :| 0 <= j < |rules| && !Passes(rules[j], req) && ErrorOf(rules[k]) == ErrorOf(rules[j]);
      assert Path(rules[j].field) == Path(rules[k].field);
    }
  }

  /** Each failed sender field yields the error carrying its path and fixed message. */
  lemma SenderMessages(req: RequestBody)
    ensures ValidationError("usersIDs", "usersIDs is required") in SenderErrors(req)
            <==> !IsArrayOf(req.usersIDs, 1)
    ensures ValidationError("title", "Title is required") in SenderErrors(req)
            <==> !IsNotEmpty(req.title)
    ensures ValidationError("body", "Body is required") in SenderErrors(req)
            <==> !IsNotEmpty(req.body)
    ensures ValidationError("firebaseKeyUrl", "firebaseKeyUrl is required") in SenderErrors(req)
            <==> !IsNotEmpty(req.firebaseKeyUrl)
    ensures ValidationError("databaseURL", "databaseURL is required") in SenderErrors(req)
            <==> !IsNotEmpty(req.databaseURL)
    ensures ValidationError("databaseRef", "databaseRef is required") in SenderErrors(req)
            <==> !IsNotEmpty(req.databaseRef)
  {
    var rules := SenderRules();
    ErrorPerRule(rules, req, 0);
    ErrorPerRule(rules, req, 1);
    ErrorPerRule(rules, req, 2);
    ErrorPerRule(rules, req, 3);
    ErrorPerRule(rules, req, 4);
    ErrorPerRule(rules, req, 5);
  }

  /** Each failed remover field yields its error; `title` and `body` are never reported. */
  lemma RemoverMessages(req: RequestBody)
    ensures ValidationError("usersIDs", "usersIDs is required") in RemoverErrors(req)
            <==> !IsArrayOf(req.usersIDs, 1)
    ensures ValidationError("firebaseKeyUrl", "firebaseKeyUrl is required") in RemoverErrors(req)
            <==> !IsNotEmpty(req.firebaseKeyUrl)
    ensures ValidationError("databaseURL", "databaseURL is required") in RemoverErrors(req)
            <==> !IsNotEmpty(req.databaseURL)
    ensures ValidationError("databaseRef", "databaseRef is required") in RemoverErrors(req)
            <==> !IsNotEmpty(req.databaseRef)
    ensures forall e :: e in RemoverErrors(req) ==> e.path != "title" && e.path != "body"
  {
    var rules := RemoverRules();
    ErrorPerRule(rules, req, 0);
    ErrorPerRule(rules, req, 1);
    ErrorPerRule(rules, req, 2);
    ErrorPerRule(rules, req, 3);
    forall e | e in RemoverErrors(req)
      ensures e.path != "title" && e.path != "body"
    {
      ErrorsReportFailedRules(rules, req, e);
    }
  }

  /** The remover's verdict does not depend on `title` or `body`. */
  lemma {:induction false} RemoverIgnoresTitleAndBody(req: RequestBody, title: FieldValue, body: FieldValue)
    ensures RemoverErrors(req.(title := title, body := body)) == RemoverErrors(req)
  {
    var other := req.(title := title, body := body);
    var rules := RemoverRules();
    assert forall k :: 0 <= k < |rules| ==> FieldOf(other, rules[k].field) == FieldOf(req, rules[k].field);
    SameFieldsSameErrors(rules, req, other);
  }

  /** Two requests that agree on every checked field get the same errors. */
  lemma {:induction false} SameFieldsSameErrors(rules: seq<Rule>, a: RequestBody, b: RequestBody)
    requires forall k :: 0 <= k < |rules| ==> FieldOf(a, rules[k].field) == FieldOf(b, rules[k].field)
    ensures Errors(rules, a) == Errors(rules, b)
    decreases |rules|
  {
    if rules != [] {
      assert FieldOf(a, rules[0].field) == FieldOf(b, rules[0].field);
      forall k | 0 <= k < |rules[1..]|
        ensures FieldOf(a, rules[1..][k].field) == FieldOf(b, rules[1..][k].field)
      {
        assert rules[1..][k] == rules[k + 1];
      }
      SameFieldsSameErrors(rules[1..], a, b);
    }
  }

  /** A request the sender route accepts is also accepted by the remover route. */
  lemma SenderValidIsRemoverValid(req: RequestBody)
    requires SenderErrors(req) == []
    ensures RemoverErrors(req) == []
  {
    SenderValid(req);
    RemoverValid(req);
  }
}
