/**
 * The registration handler (src/routes/register.rs): it walks the multipart
 * stream part by part, routes each named part into the user builder or into
 * a map of routing errors, aborts on the first transport, parse or
 * repository failure, and finally lets the builder's verdict decide between
 * creating the user and answering 422.
 *
 * Reading a part's body, the repositories and token issuance are calls into
 * code outside the model; they, and `merge_errors`, are the fields of a
 * `Services` value and are assumed to be nothing but functions of their
 * arguments.
 */
module Registration {
  import opened Results
  import opened Errors
  import opened Users

  /** One part of the form: its name when it has one, its declared content type, and its body. */
  datatype Part = Part(name: Option<string>, contentType: Option<string>, body: seq<bv8>)

  /** What asking the multipart stream for the next part yields: a part, or a stream failure. */
  datatype StreamItem = Next(part: Part) | Broken(cause: string)

  /** The collaborators the handler calls. */
  datatype Services = Services(
    readText: Part -> Result<string, string>,     // decode a part's body as text, or the cause of failure
    readBytes: Part -> Result<seq<bv8>, string>,  // read a part's body, or the cause of failure
    createEmail: string -> Result<Uuid, AppError>,
    createImage: (string, seq<bv8>) -> Result<Uuid, AppError>,
    createUser: InsertableUser -> Result<User, AppError>,
    issueToken: (string, nat) -> Result<string, AppError>,  // subject, time to live in seconds
    mergeErrors: (ErrorMap, ErrorMap) -> ErrorMap)

  const STREAM_CONTEXT: string := "failed to parse multipart form data"
  const INVALID_FIELD: string := "Invalid field"
  const CONFIRMATION_PREFIX: string := "confirmation_tokens:"
  const CONFIRMATION_TTL_SECONDS: nat := 60 * 10
  const CREATED: nat := 201

  /** A successful registration: the status and the stored user. */
  datatype Created = Created(status: nat, user: User)

  // ---------------------------------------------------------------------
  // The field parsers: each reads a part and wraps a failure with its context.

  function ParseText(part: Part, svc: Services, context: string): (r: Result<string, AppError>)
    ensures r.Ok? <==> svc.readText(part).Ok?
    ensures r.Ok? ==> r.value == svc.readText(part).value
    ensures r.Err? ==> r.error == Internal(Report([context, svc.readText(part).error]))
  {
    match svc.readText(part)
    case Ok(text) => Ok(text)
    case Err(cause) => Err(Internal(Report([context, cause])))
  }

  function ParseUsername(part: Part, svc: Services): (r: Result<string, AppError>)
    ensures r.Ok? <==> svc.readText(part).Ok?
    ensures r.Ok? ==> r.value == svc.readText(part).value
    ensures r.Err? ==> r.error == Internal(Report(["failed to parse form username", svc.readText(part).error]))
  {
    ParseText(part, svc, "failed to parse form username")
  }

  function ParsePassword(part: Part, svc: Services): (r: Result<string, AppError>)
    ensures r.Ok? <==> svc.readText(part).Ok?
    ensures r.Ok? ==> r.value == svc.readText(part).value
    ensures r.Err? ==> r.error == Internal(Report(["failed to parse form password", svc.readText(part).error]))
  {
    ParseText(part, svc, "failed to parse form password")
  }

  function ParseFullName(part: Part, svc: Services): (r: Result<string, AppError>)
    ensures r.Ok? <==> svc.readText(part).Ok?
    ensures r.Ok? ==> r.value == svc.readText(part).value
    ensures r.Err? ==> r.error == Internal(Report(["failed to parse form full name", svc.readText(part).error]))
  {
    ParseText(part, svc, "failed to parse form full name")
  }

  function ParseEmail(part: Part, svc: Services): (r: Result<string, AppError>)
    ensures r.Ok? <==> svc.readText(part).Ok?
    ensures r.Ok? ==> r.value == svc.readText(part).value
    ensures r.Err? ==> r.error == Internal(Report(["failed to parse form email", svc.readText(part).error]))
  {
    ParseText(part, svc, "failed to parse form email")
  }

  /** The declared content type of an image part; a part without one is an error. */
  function ParseImageContentType(part: Part): (r: Result<string, AppError>)
    ensures r.Ok? <==> part.contentType.Some?
    ensures r.Ok? ==> r.value == part.contentType.value
    ensures r.Err? ==> r.error == Internal(Report(["failed to fetch image content type"]))
  {
    match part.contentType
    case Some(mime) => Ok(mime)
    case None => Err(Internal(Report(["failed to fetch image content type"])))
  }

  function ParseImage(part: Part, svc: Services): (r: Result<seq<bv8>, AppError>)
    ensures r.Ok? <==> svc.readBytes(part).Ok?
    ensures r.Ok? ==> r.value == svc.readBytes(part).value
    ensures r.Err? ==> r.error == Internal(Report(["failed to parse form image", svc.readBytes(part).error]))
  {
    match svc.readBytes(part)
    case Ok(bytes) => Ok(bytes)
    case Err(cause) => Err(Internal(Report(["failed to parse form image", cause])))
  }

  // ---------------------------------------------------------------------
  // The builder seen field by field: the reference the routing is checked against.

  /** The five fields a form part can target, with the part name that selects each. */
  datatype Field = Username | Password | FullName | Email | ProfilePic
  {
    function Name(): string
    {
      match this
      case Username => "username"
      case Password => "password"
      case FullName => "full_name"
      case Email => "email"
      case ProfilePic => "profile_pic"
    }
  }

  /** The content of one builder field. */
  datatype Slot = Text(text: string) | OptionalText(maybe: Option<string>) | Reference(id: Option<Uuid>)

  /** What builder `b` holds for field `f`. */
  function SlotOf(b: InsertableUserBuilder, f: Field): Slot
  {
    match f
    case Username => Text(b.username)
    case Password => Text(b.passwdHash)
    case FullName => OptionalText(b.fullName)
    case Email => Reference(b.emailId)
    case ProfilePic => Reference(b.profilePicId)
  }

  /**
   * What a part routed to field `f` delivers to the builder: the parsed
   * text, or the id the email or image repository returns for it; or the
   * error that aborts the request.
   */
  function Delivered(f: Field, part: Part, svc: Services): (r: Result<Slot, AppError>)
    ensures (f == Username || f == Password) ==>
              && (r.Ok? <==> svc.readText(part).Ok?)
              && (r.Ok? ==> r.value == Text(svc.readText(part).value))
    ensures f == FullName ==>
              && (r.Ok? <==> svc.readText(part).Ok?)
              && (r.Ok? ==> r.value == OptionalText(Some(svc.readText(part).value)))
    // a text field that cannot be read fails with the cause wrapped in that field's context
    ensures f == Username && svc.readText(part).Err? ==>
              r == Err(Internal(Report(["failed to parse form username", svc.readText(part).error])))
    ensures f == Password && svc.readText(part).Err? ==>
              r == Err(Internal(Report(["failed to parse form password", svc.readText(part).error])))
    ensures f == FullName && svc.readText(part).Err? ==>
              r == Err(Internal(Report(["failed to parse form full name", svc.readText(part).error])))
    ensures f == Email ==>
              && (r.Ok? <==> svc.readText(part).Ok? && svc.createEmail(svc.readText(part).value).Ok?)
              && (r.Ok? ==> r.value == Reference(Some(svc.createEmail(svc.readText(part).value).value)))
              && (svc.readText(part).Err? ==>
                    r == Err(Internal(Report(["failed to parse form email", svc.readText(part).error]))))
              && (svc.readText(part).Ok? && svc.createEmail(svc.readText(part).value).Err? ==>
                    r == Err(svc.createEmail(svc.readText(part).value).error))
    ensures f == ProfilePic ==>
              && (r.Ok? <==> && part.contentType.Some? && svc.readBytes(part).Ok?
                             && svc.createImage(part.contentType.value, svc.readBytes(part).value).Ok?)
              && (r.Ok? ==> r.value == Reference(Some(svc.createImage(part.contentType.value,
                                                                     svc.readBytes(part).value).value)))
              && (part.contentType.None? ==> r == Err(Internal(Report(["failed to fetch image content type"]))))
              && (part.contentType.Some? && svc.readBytes(part).Err? ==>
                    r == Err(Internal(Report(["failed to parse form image", svc.readBytes(part).error]))))
              && (part.contentType.Some? && svc.readBytes(part).Ok?
                  && svc.createImage(part.contentType.value, svc.readBytes(part).value).Err? ==>
                    r == Err(svc.createImage(part.contentType.value, svc.readBytes(part).value).error))
  {
    match f
    case Username =>
      (match ParseUsername(part, svc) case Err(e) => Err(e) case Ok(t) => Ok(Text(t)))
    case Password =>
      (match ParsePassword(part, svc) case Err(e) => Err(e) case Ok(t) => Ok(Text(t)))
    case FullName =>
      (match ParseFullName(part, svc) case Err(e) => Err(e) case Ok(t) => Ok(OptionalText(Some(t))))
    case Email =>
      (match ParseEmail(part, svc)
       case Err(e) => Err(e)
       case Ok(address) =>
         match svc.createEmail(address) case Err(e) => Err(e) case Ok(id) => Ok(Reference(Some(id))))
    case ProfilePic =>
      (match ParseImageContentType(part)
       case Err(e) => Err(e)
       case Ok(mime) =>
         match ParseImage(part, svc)
         case Err(e) => Err(e)
         case Ok(image) =>
           match svc.createImage(mime, image) case Err(e) => Err(e) case Ok(id) => Ok(Reference(Some(id))))
  }

  // ---------------------------------------------------------------------
  // The routing loop, as functions.

  /** The handler's two accumulators. */
  datatype Routing = Routing(builder: InsertableUserBuilder, errors: ErrorMap)

  function Initial(): Routing
  {
    Routing(InsertableUserBuilder.New(), map[])
  }

  /** The field a part name selects, if any. */
  function FieldNamed(name: string): (f: Option<Field>)
    ensures f.Some? ==> f.value.Name() == name
    ensures f.None? ==> forall g: Field :: g.Name() != name
  {
    if name == "username" then Some(Username)
    else if name == "password" then Some(Password)
    else if name == "full_name" then Some(FullName)
    else if name == "email" then Some(Email)
    else if name == "profile_pic" then Some(ProfilePic)
    else None
  }

  /**
   * One turn of the loop: a nameless part is skipped, a known name sets its
   * builder field, an unknown name is recorded as an invalid field.
   */
  function RoutePart(s: Routing, part: Part, svc: Services): (r: Result<Routing, AppError>)
    ensures part.name == None ==> r == Ok(s)
    ensures part.name.Some? && FieldNamed(part.name.value) == None ==>
              r == Ok(Routing(s.builder, AddError(s.errors, part.name.value, INVALID_FIELD)))
    ensures forall f: Field :: part.name == Some(f.Name()) ==>
              && (r.Ok? <==> Delivered(f, part, svc).Ok?)
              && (r.Err? ==> r.error == Delivered(f, part, svc).error)
              && (r.Ok? ==> && r.value.errors == s.errors
                            && SlotOf(r.value.builder, f) == Delivered(f, part, svc).value
                            && forall g: Field :: g != f ==> SlotOf(r.value.builder, g) == SlotOf(s.builder, g))
  {
    match part.name
    case None => Ok(s)
    case Some(name) =>
      if name == "username" then
        match ParseUsername(part, svc)
        case Err(e) => Err(e)
        case Ok(text) => Ok(s.(builder := s.builder.WithUsername(text)))
      else if name == "password" then
        match ParsePassword(part, svc)
        case Err(e) => Err(e)
        case Ok(text) => Ok(s.(builder := s.builder.WithPassword(text)))
      else if name == "full_name" then
        match ParseFullName(part, svc)
        case Err(e) => Err(e)
        case Ok(text) => Ok(s.(builder := s.builder.WithFullName(text)))
      else if name == "email" then
        match ParseEmail(part, svc)
        case Err(e) => Err(e)
        case Ok(address) =>
          match svc.createEmail(address)
          case Err(e) => Err(e)
          case Ok(id) => Ok(s.(builder := s.builder.WithEmailId(id)))
      else if name == "profile_pic" then
        match ParseImageContentType(part)
        case Err(e) => Err(e)
        case Ok(mime) =>
          match ParseImage(part, svc)
          case Err(e) => Err(e)
          case Ok(image) =>
            match svc.createImage(mime, image)
            case Err(e) => Err(e)
            case Ok(id) => Ok(s.(builder := s.builder.WithProfilePicId(id)))
      else
        Ok(s.(errors := AddError(s.errors, name, INVALID_FIELD)))
  }

  /** The whole loop: route the items in order, stopping at the first failure. */
  function RouteItems(s: Routing, items: seq<StreamItem>, svc: Services): (r: Result<Routing, AppError>)
    ensures r.Ok? ==> forall i :: 0 <= i < |items| ==> items[i].Next?
    ensures r.Ok? ==> forall k :: k in s.errors ==> k in r.value.errors
    ensures items != [] && items[0].Broken? ==> r == Err(Internal(Report([STREAM_CONTEXT, items[0].cause])))
    ensures items != [] && items[0].Next? && RoutePart(s, items[0].part, svc).Err? ==>
              r == Err(RoutePart(s, items[0].part, svc).error)
    decreases |items|
  {
    if items == [] then Ok(s)
    else
      match items[0]
      case Broken(cause) => Err(Internal(Report([STREAM_CONTEXT, cause])))
      case Next(part) =>
        match RoutePart(s, part, svc)
        case Err(e) => Err(e)
        case Ok(t) => RouteItems(t, items[1..], svc)
  }

  /** The confirmation token's key for a user name. */
  function ConfirmationSubject(username: string): (subject: string)
    ensures |subject| == |CONFIRMATION_PREFIX| + |username|
    ensures subject[..|CONFIRMATION_PREFIX|] == CONFIRMATION_PREFIX
    ensures subject[|CONFIRMATION_PREFIX|..] == username
  {
    CONFIRMATION_PREFIX + username
  }

  /**
   * `send_user`: store the user, issue its confirmation token for ten
   * minutes, and answer 201 with the stored user. The token itself is not
   * sent anywhere.
   */
  function SendUser(user: InsertableUser, svc: Services): (r: Result<Created, AppError>)
    ensures svc.createUser(user).Err? ==> r == Err(svc.createUser(user).error)
    ensures r.Ok? <==> && svc.createUser(user).Ok?
                       && svc.issueToken(ConfirmationSubject(svc.createUser(user).value.username),
                                         CONFIRMATION_TTL_SECONDS).Ok?
    ensures r.Ok? ==> r.value.status == CREATED && r.value.user == svc.createUser(user).value
    ensures svc.createUser(user).Ok?
            && svc.issueToken(ConfirmationSubject(svc.createUser(user).value.username), CONFIRMATION_TTL_SECONDS).Err? ==>
              r == Err(svc.issueToken(ConfirmationSubject(svc.createUser(user).value.username),
                                      CONFIRMATION_TTL_SECONDS).error)
  {
    match svc.createUser(user)
    case Err(e) => Err(e)
    case Ok(stored) =>
      match svc.issueToken(ConfirmationSubject(stored.username), CONFIRMATION_TTL_SECONDS)
      case Err(e) => Err(e)
      case Ok(_) => Ok(Created(CREATED, stored))
  }

  /** The outcome of a registration request for a given stream. */
  function RegisterOutcome(items: seq<StreamItem>, svc: Services): (r: Result<Created, AppError>)
    ensures r.Ok? ==> && (forall i :: 0 <= i < |items| ==> items[i].Next?)
                      && RouteItems(Initial(), items, svc).Ok?
                      && RouteItems(Initial(), items, svc).value.builder.Build().Ok?
                      && r.value.status == CREATED
    ensures RouteItems(Initial(), items, svc).Ok? && RouteItems(Initial(), items, svc).value.builder.Build().Err? ==>
              r.Err? && r.error.UnprocessableEntity?
    ensures RouteItems(Initial(), items, svc).Err? ==> r == Err(RouteItems(Initial(), items, svc).error)
  {
    match RouteItems(Initial(), items, svc)
    case Err(e) => Err(e)
    case Ok(s) =>
      match s.builder.Build()
      case Ok(user) => SendUser(user, svc)
      case Err(missing) => Err(UnprocessableEntity(svc.mergeErrors(s.errors, missing)))
  }

  // ---------------------------------------------------------------------
  // The handler itself.

  /** `register`: the loop over the stream with its two accumulators, then the builder's verdict. */
  method Register(stream: seq<StreamItem>, svc: Services) returns (r: Result<Created, AppError>)
    ensures r == RegisterOutcome(stream, svc)
  {
    var builder := InsertableUserBuilder.New();
    var errors: ErrorMap := map[];
    var i := 0;
    while i < |stream|
      invariant i <= |stream|
      invariant RouteItems(Routing(builder, errors), stream[i..], svc) == RouteItems(Initial(), stream, svc)
    {
      assert stream[i..][1..] == stream[i + 1..];
      match stream[i] {
        case Broken(cause) =>
          return Err(Internal(Report([STREAM_CONTEXT, cause])));
        case Next(field) =>
          if field.name.Some? {
            var name := field.name.value;
            if name == "username" {
              var text := ParseUsername(field, svc);
              if text.Err? { return Err(text.error); }
              builder := builder.WithUsername(text.value);
            } else if name == "password" {
              var text := ParsePassword(field, svc);
              if text.Err? { return Err(text.error); }
              builder := builder.WithPassword(text.value);
            } else if name == "full_name" {
              var text := ParseFullName(field, svc);
              if text.Err? { return Err(text.error); }
              builder := builder.WithFullName(text.value);
            } else if name == "email" {
              var address := ParseEmail(field, svc);
              if address.Err? { return Err(address.error); }
              var id := svc.createEmail(address.value);
              if id.Err? { return Err(id.error); }
              builder := builder.WithEmailId(id.value);
            } else if name == "profile_pic" {
              var mime := ParseImageContentType(field);
              if mime.Err? { return Err(mime.error); }
              var image := ParseImage(field, svc);
              if image.Err? { return Err(image.error); }
              var id := svc.createImage(mime.value, image.value);
              if id.Err? { return Err(id.error); }
              builder := builder.WithProfilePicId(id.value);
            } else {
              errors := AddError(errors, name, INVALID_FIELD);
            }
          }
      }
      i := i + 1;
    }
    match builder.Build() {
      case Ok(user) =>
        r := SendUser(user, svc);
      case Err(missing) =>
        r := Err(UnprocessableEntity(svc.mergeErrors(errors, missing)));
    }
  }
}

