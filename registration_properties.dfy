/** What can be proved about the routing loop and the handler's outcome. */
module RegistrationProperties {
  import opened Results
  import opened Errors
  import opened Users
  import opened Registration

  /** Names of the nameable parts in `items` that select no field. */
  function UnknownNames(items: seq<StreamItem>): set<string>
    decreases |items|
  {
    if items == [] then {}
    else
      var here := if items[0].Next? && items[0].part.name.Some? && FieldNamed(items[0].part.name.value) == None
                  then {items[0].part.name.value} else {};
      here + UnknownNames(items[1..])
  }

  /** No part of `items` carries the name of field `f`. */
  predicate NeverNames(items: seq<StreamItem>, f: Field)
  {
    forall i :: 0 <= i < |items| ==> !(items[i].Next? && items[i].part.name == Some(f.Name()))
  }

  /** Every message recorded is "Invalid field". */
  predicate OnlyInvalidField(errors: ErrorMap)
  {
    forall k :: k in errors ==> forall i :: 0 <= i < |errors[k]| ==> errors[k][i] == INVALID_FIELD
  }

  /** Routing a stream in two pieces is routing the first piece, then the second from where it left off. */
  lemma {:induction false} RouteConcat(s: Routing, a: seq<StreamItem>, b: seq<StreamItem>, svc: Services)
    ensures RouteItems(s, a + b, svc)
         == match RouteItems(s, a, svc) case Err(e) => Err(e) case Ok(t) => RouteItems(t, b, svc)
    decreases |a|
  {
    if a == [] {
      assert a + b == b;
    } else {
      assert (a + b)[0] == a[0];
      assert (a + b)[1..] == a[1..] + b;
      match a[0]
      case Broken(_) =>
      case Next(part) =>
        match RoutePart(s, part, svc)
        case Err(_) =>
        case Ok(t) => RouteConcat(t, a[1..], b, svc);
    }
  }

  /** Once an item fails, the request fails with its error whatever comes after it. */
  lemma AbortIgnoresLaterParts(s: Routing, done: seq<StreamItem>, later: seq<StreamItem>, svc: Services)
    requires RouteItems(s, done, svc).Err?
    ensures RouteItems(s, done + later, svc) == RouteItems(s, done, svc)
    ensures s == Initial() ==> RegisterOutcome(done + later, svc) == Err(RouteItems(s, done, svc).error)
  {
    RouteConcat(s, done, later, svc);
  }

  /** Parts that do not name field `f` leave what the builder holds for `f` as it was. */
  lemma {:induction false} FieldUntouched(s: Routing, items: seq<StreamItem>, f: Field, svc: Services)
    requires NeverNames(items, f)
    requires RouteItems(s, items, svc).Ok?
    ensures SlotOf(RouteItems(s, items, svc).value.builder, f) == SlotOf(s.builder, f)
    decreases |items|
  {
    if items != [] {
      var part := items[0].part;
      var t := RoutePart(s, part, svc).value;
      assert SlotOf(t.builder, f) == SlotOf(s.builder, f) by {
        if part.name.Some? {
          var name := part.name.value;
          match FieldNamed(name)
          case None =>
          case Some(g) => assert g != f;
        }
      }
      assert NeverNames(items[1..], f) by {
        forall i | 0 <= i < |items[1..]|
          ensures !(items[1..][i].Next? && items[1..][i].part.name == Some(f.Name()))
        {
          assert items[1..][i] == items[i + 1];
        }
      }
      FieldUntouched(t, items[1..], f, svc);
    }
  }

  /**
   * Parts are applied in arrival order: when a field is named more than
   * once, the value delivered by the last part naming it is what the
   * builder ends up holding.
   */
  lemma LastPartWins(s: Routing, before: seq<StreamItem>, part: Part, after: seq<StreamItem>, f: Field, svc: Services)
    requires part.name == Some(f.Name())
    requires NeverNames(after, f)
    requires RouteItems(s, before + [Next(part)] + after, svc).Ok?
    ensures Delivered(f, part, svc).Ok?
    ensures SlotOf(RouteItems(s, before + [Next(part)] + after, svc).value.builder, f) == Delivered(f, part, svc).value
  {
    RouteConcat(s, before + [Next(part)], after, svc);
    RouteConcat(s, before, [Next(part)], svc);
    var m := RouteItems(s, before, svc).value;
    var t := RoutePart(m, part, svc).value;
    assert RouteItems(s, before + [Next(part)], svc) == Ok(t);
    FieldUntouched(t, after, f, svc);
  }

  /**
   * The routing errors: every unknown part name becomes a key, no other key
   * is added, and the only message ever recorded is "Invalid field".
   */
  lemma {:induction false} RoutingErrorsAreUnknownNames(s: Routing, items: seq<StreamItem>, svc: Services)
    requires RouteItems(s, items, svc).Ok?
    ensures forall k :: k in RouteItems(s, items, svc).value.errors <==> k in s.errors || k in UnknownNames(items)
    ensures OnlyInvalidField(s.errors) ==> OnlyInvalidField(RouteItems(s, items, svc).value.errors)
    decreases |items|
  {
    if items != [] {
      var part := items[0].part;
      var t := RoutePart(s, part, svc).value;
      RoutingErrorsAreUnknownNames(t, items[1..], svc);
      if part.name.Some? && FieldNamed(part.name.value) == None {
        var name := part.name.value;
        assert t.errors == AddError(s.errors, name, INVALID_FIELD);
        if OnlyInvalidField(s.errors) {
          assert forall i :: 0 <= i < |Messages(s.errors, name)| ==> Messages(s.errors, name)[i] == INVALID_FIELD;
          assert OnlyInvalidField(t.errors);
        }
      } else if part.name.Some? {
        var f := FieldNamed(part.name.value).value;
        assert part.name == Some(f.Name());
      }
    }
  }

  /**
   * On a successful build the user is created and the routing errors play
   * no part, even when some parts had unknown names.
   */
  lemma SuccessfulBuildDropsRoutingErrors(items: seq<StreamItem>, svc: Services)
    requires RouteItems(Initial(), items, svc).Ok?
    requires RouteItems(Initial(), items, svc).value.builder.Build().Ok?
    ensures RegisterOutcome(items, svc) == SendUser(RouteItems(Initial(), items, svc).value.builder.Build().value, svc)
  {
  }

  /** An unknown field beside valid required fields is recorded, and the user is still created. */
  lemma UnknownFieldTolerated(u: Part, p: Part, e: Part, foo: Part, id: Uuid, svc: Services)
    requires u.name == Some("username") && svc.readText(u) == Ok("johndoe")
    requires p.name == Some("password") && svc.readText(p) == Ok("12345")
    requires e.name == Some("email") && svc.readText(e) == Ok("john@doe.com")
    requires svc.createEmail("john@doe.com") == Ok(id)
    requires foo.name == Some("foo")
    ensures RouteItems(Initial(), [Next(u), Next(p), Next(e), Next(foo)], svc)
         == Ok(Routing(InsertableUserBuilder("johndoe", None, None, Some(id), "12345"), map["foo" := [INVALID_FIELD]]))
    ensures RegisterOutcome([Next(u), Next(p), Next(e), Next(foo)], svc)
         == SendUser(InsertableUser("johndoe", None, None, id, "12345"), svc)
  {
    var b := InsertableUserBuilder("johndoe", None, None, Some(id), "12345");
    var s1 := Routing(InsertableUserBuilder("johndoe", None, None, None, []), map[]);
    var s2 := Routing(InsertableUserBuilder("johndoe", None, None, None, "12345"), map[]);
    var s3 := Routing(b, map[]);
    var s4 := Routing(b, map["foo" := [INVALID_FIELD]]);
    assert RoutePart(Initial(), u, svc) == Ok(s1);
    assert RoutePart(s1, p, svc) == Ok(s2);
    assert RoutePart(s2, e, svc) == Ok(s3);
    assert Messages(map[], "foo") + [INVALID_FIELD] == [INVALID_FIELD];
    assert RoutePart(s3, foo, svc) == Ok(s4);
    Route4(Initial(), Next(u), Next(p), Next(e), Next(foo), svc);
  }

  /** The well-formed registration of the end-to-end test reaches user creation with exactly its fields. */
  lemma ValidRegistration(u: Part, p: Part, n: Part, e: Part, id: Uuid, svc: Services)
    requires u.name == Some("username") && svc.readText(u) == Ok("johndoe")
    requires p.name == Some("password") && svc.readText(p) == Ok("12345")
    requires n.name == Some("full_name") && svc.readText(n) == Ok("John Doe")
    requires e.name == Some("email") && svc.readText(e) == Ok("john@doe.com")
    requires svc.createEmail("john@doe.com") == Ok(id)
    ensures RegisterOutcome([Next(u), Next(p), Next(n), Next(e)], svc)
         == SendUser(InsertableUser("johndoe", Some("John Doe"), None, id, "12345"), svc)
  {
    var s1 := Routing(InsertableUserBuilder("johndoe", None, None, None, []), map[]);
    var s2 := Routing(InsertableUserBuilder("johndoe", None, None, None, "12345"), map[]);
    var s3 := Routing(InsertableUserBuilder("johndoe", Some("John Doe"), None, None, "12345"), map[]);
    var s4 := Routing(InsertableUserBuilder("johndoe", Some("John Doe"), None, Some(id), "12345"), map[]);
    assert RoutePart(Initial(), u, svc) == Ok(s1);
    assert RoutePart(s1, p, svc) == Ok(s2);
    assert RoutePart(s2, n, svc) == Ok(s3);
    assert RoutePart(s3, e, svc) == Ok(s4);
    Route4(Initial(), Next(u), Next(p), Next(n), Next(e), svc);
  }

  /** Routing a four-part stream is four routing steps. */
  lemma Route4(s: Routing, w: StreamItem, x: StreamItem, y: StreamItem, z: StreamItem, svc: Services)
    requires w.Next? && x.Next? && y.Next? && z.Next?
    requires RoutePart(s, w.part, svc).Ok?
    requires RoutePart(RoutePart(s, w.part, svc).value, x.part, svc).Ok?
    requires RoutePart(RoutePart(RoutePart(s, w.part, svc).value, x.part, svc).value, y.part, svc).Ok?
    ensures RouteItems(s, [w, x, y, z], svc)
         == RoutePart(RoutePart(RoutePart(RoutePart(s, w.part, svc).value, x.part, svc).value, y.part, svc).value, z.part, svc)
  {
    var s1 := RoutePart(s, w.part, svc).value;
    var s2 := RoutePart(s1, x.part, svc).value;
    var s3 := RoutePart(s2, y.part, svc).value;
    assert [w, x, y, z][1..] == [x, y, z];
    assert [x, y, z][1..] == [y, z];
    assert [y, z][1..] == [z];
    assert [z][1..] == [];
    assert RouteItems(s, [w, x, y, z], svc) == RouteItems(s1, [x, y, z], svc);
    assert RouteItems(s1, [x, y, z], svc) == RouteItems(s2, [y, z], svc);
    assert RouteItems(s2, [y, z], svc) == RouteItems(s3, [z], svc);
    match RoutePart(s3, z.part, svc)
    case Err(_) =>
    case Ok(s4) => assert RouteItems(s4, [], svc) == Ok(s4);
  }

  /** Without a username the request is rejected as unprocessable, with the username reported missing. */
  lemma MissingUsernameRejected(p: Part, e: Part, id: Uuid, svc: Services)
    requires p.name == Some("password") && svc.readText(p) == Ok("12345")
    requires e.name == Some("email") && svc.readText(e) == Ok("john@doe.com")
    requires svc.createEmail("john@doe.com") == Ok(id)
    ensures RegisterOutcome([Next(p), Next(e)], svc)
         == Err(UnprocessableEntity(svc.mergeErrors(map[], map["username" := [MISSING_FIELD]])))
  {
    var items := [Next(p), Next(e)];
    assert items[1..] == [Next(e)];
    assert items[1..][1..] == [];
    var s1 := Routing(InsertableUserBuilder([], None, None, None, "12345"), map[]);
    var b := InsertableUserBuilder([], None, None, Some(id), "12345");
    assert RoutePart(Initial(), p, svc) == Ok(s1);
    assert RoutePart(s1, e, svc) == Ok(Routing(b, map[]));
    assert RouteItems(Routing(b, map[]), [], svc) == Ok(Routing(b, map[]));
    assert RouteItems(s1, [Next(e)], svc) == Ok(Routing(b, map[]));
    assert RouteItems(Initial(), items, svc) == Ok(Routing(b, map[]));
    var missing := b.Build().error;
    assert missing.Keys == {"username"};
    assert missing == map["username" := [MISSING_FIELD]];
  }

  /** Resting on the assumed behaviour of `merge_errors`: the 422 body of that request is exactly the missing username. */
  lemma MissingUsernameBody(p: Part, e: Part, id: Uuid, svc: Services)
    requires svc.mergeErrors == MergeErrors
    requires p.name == Some("password") && svc.readText(p) == Ok("12345")
    requires e.name == Some("email") && svc.readText(e) == Ok("john@doe.com")
    requires svc.createEmail("john@doe.com") == Ok(id)
    ensures RegisterOutcome([Next(p), Next(e)], svc) == Err(UnprocessableEntity(map["username" := [MISSING_FIELD]]))
  {
    MissingUsernameRejected(p, e, id, svc);
    MergeIdentity(map["username" := [MISSING_FIELD]]);
  }

  /** When the builder rejects the fields, the answer is 422 with the routing errors merged before the missing fields. */
  lemma FailedBuildIsUnprocessable(items: seq<StreamItem>, svc: Services)
    requires RouteItems(Initial(), items, svc).Ok?
    requires RouteItems(Initial(), items, svc).value.builder.Build().Err?
    ensures RegisterOutcome(items, svc)
         == Err(UnprocessableEntity(svc.mergeErrors(RouteItems(Initial(), items, svc).value.errors,
                                                    RouteItems(Initial(), items, svc).value.builder.Build().error)))
  {
  }

  /**
   * Resting on the assumed behaviour of `merge_errors`: a rejected request
   * reports every unknown part name and every missing required field, and
   * nothing else.
   */
  lemma UnprocessableBodyKeys(items: seq<StreamItem>, svc: Services)
    requires svc.mergeErrors == MergeErrors
    requires RouteItems(Initial(), items, svc).Ok?
    requires RouteItems(Initial(), items, svc).value.builder.Build().Err?
    ensures RegisterOutcome(items, svc).Err? && RegisterOutcome(items, svc).error.UnprocessableEntity?
    ensures var body := RegisterOutcome(items, svc).error.errors;
            var missing := RouteItems(Initial(), items, svc).value.builder.Build().error;
            forall k :: k in body <==> k in UnknownNames(items) || k in missing
  {
    RoutingErrorsAreUnknownNames(Initial(), items, svc);
  }

  /** The confirmation subject names exactly one user. */
  lemma ConfirmationSubjectInjective(a: string, b: string)
    ensures ConfirmationSubject(a) == ConfirmationSubject(b) ==> a == b
  {
  }
}
