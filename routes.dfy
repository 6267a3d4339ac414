/** The request handlers of server/routes.ts that carry logic: the purchase
    workflow with its input validation, and the handlers that turn a store
    miss into 404. The store is the one instance the handlers share. */
module Routes {
  import opened Wrappers
  import opened Tables
  import opened Schema
  import opened Storage
  import opened Notification

  /** A JSON number: a whole number, or one with a fractional part. */
  datatype Number = Whole(value: int) | Fractional

  /** A field of a JSON request body; `Other` is absent, null, a boolean, an array or an object. */
  datatype Json = JString(s: string) | JNumber(n: Number) | Other

  datatype PurchaseField = Name | Email | Mobile | CourseId | UtrNumber

  /** The fields of a `/api/purchase` body that the handler reads. */
  datatype PurchaseBody = PurchaseBody(name: Json, email: Json, mobile: Json, courseId: Json, utrNumber: Json)

  /** A body that passed `purchaseSchema`. */
  datatype PurchaseData = PurchaseData(name: string, email: string, mobile: string, courseId: Number, utrNumber: string)

  /** What `/api/purchase` answers: 400 with the failing fields, 404, or 201
      with the new order's id and the notification message. */
  datatype PurchaseResult = Invalid(errors: seq<PurchaseField>) | CourseNotFound | Created(orderId: int, message: string)

  /** A handler's answer: an HTTP status and, on success, the record it returns. */
  datatype Response<T> = Response(status: int, body: Option<T>)

  /** JavaScript's `length`: UTF-16 code units, two for a character outside the Basic Multilingual Plane. */
  function Utf16Length(s: string): (n: nat)
    ensures |s| <= n <= 2 * |s|
  {
    if s == [] then 0 else (if s[0] as int > 0xFFFF then 2 else 1) + Utf16Length(s[1..])
  }

  /** `z.string().min(min)`. */
  predicate StringOfMinLength(v: Json, min: nat) {
    v.JString? && Utf16Length(v.s) >= min
  }

  /** One rule of `purchaseSchema`; `validEmail` is the library's email test. */
  predicate FieldAccepted(b: PurchaseBody, f: PurchaseField, validEmail: string -> bool) {
    match f
    case Name => StringOfMinLength(b.name, 1)
    case Email => b.email.JString? && validEmail(b.email.s)
    case Mobile => StringOfMinLength(b.mobile, 10)
    case CourseId => b.courseId.JNumber?
    case UtrNumber => StringOfMinLength(b.utrNumber, 12)
  }

  /** The keys of `purchaseSchema`, in declaration order. */
  function SchemaFields(): seq<PurchaseField> {
    [Name, Email, Mobile, CourseId, UtrNumber]
  }

  /** The schema lists every field. */
  lemma EverySchemaField()
    ensures forall f :: f in SchemaFields()
  {
    forall f ensures f in SchemaFields() {
      match f
      case Name =>
      case Email =>
      case Mobile =>
      case CourseId =>
      case UtrNumber =>
    }
  }

  /** The fields of `fs` that fail their rule, in the order of `fs`. */
  function FailingAmong(b: PurchaseBody, validEmail: string -> bool, fs: seq<PurchaseField>): (errors: seq<PurchaseField>)
    ensures forall f :: f in errors <==> f in fs && !FieldAccepted(b, f, validEmail)
    ensures IsSubsequence(errors, fs)
  {
    if fs == [] then []
    else
      var rest := FailingAmong(b, validEmail, fs[1..]);
      assert fs == [fs[0]] + fs[1..];
      if FieldAccepted(b, fs[0], validEmail) then rest
      else
        assert ([fs[0]] + rest)[1..] == rest;
        [fs[0]] + rest
  }

  /** The fields that fail their rule, one entry each, in the schema's order. */
  function FieldErrors(b: PurchaseBody, validEmail: string -> bool): (errors: seq<PurchaseField>)
    ensures forall f :: f in errors <==> !FieldAccepted(b, f, validEmail)
    ensures IsSubsequence(errors, SchemaFields())
  {
    var errors := FailingAmong(b, validEmail, SchemaFields());
    EverySchemaField();
    errors
  }

  /** `purchaseSchema.parse`: accepts a body only when every field passes its
      rule, and otherwise reports exactly the failing fields. */
  function ParsePurchase(b: PurchaseBody, validEmail: string -> bool): (r: Result<PurchaseData, seq<PurchaseField>>)
    ensures r.Success? <==>
              && StringOfMinLength(b.name, 1)
              && b.email.JString? && validEmail(b.email.s)
              && StringOfMinLength(b.mobile, 10)
              && b.courseId.JNumber?
              && StringOfMinLength(b.utrNumber, 12)
    ensures r.Success? ==> r.value == PurchaseData(b.name.s, b.email.s, b.mobile.s, b.courseId.n, b.utrNumber.s)
    ensures r.Failure? ==> r.error != [] && forall f :: f in r.error <==> !FieldAccepted(b, f, validEmail)
  {
    var errors := FieldErrors(b, validEmail);
    if errors == [] then
      assert !(Name in errors) && !(Email in errors) && !(Mobile in errors)
          && !(CourseId in errors) && !(UtrNumber in errors);
      Success(PurchaseData(b.name.s, b.email.s, b.mobile.s, b.courseId.n, b.utrNumber.s))
    else
      assert errors[0] in errors;
      Failure(errors)
  }

  /** `storage.getCourse(purchaseData.courseId)`: a number with a fractional part is never a key. */
  function CourseFor(store: MemStorage, n: Number): (r: Option<Course>)
    reads store
    requires store.Valid()
    ensures r.Some? <==> n.Whole? && n.value in store.courses.rows
    ensures r.Some? ==> r.value == store.courses.rows[n.value] && r.value.id == n.value
  {
    match n
    case Whole(id) => store.GetCourse(id)
    case Fractional => None
  }

  function PurchaseStatus(r: PurchaseResult): (code: int)
    ensures code == 400 <==> r.Invalid?
    ensures code == 404 <==> r.CourseNotFound?
    ensures code == 201 <==> r.Created?
  {
    match r
    case Invalid(_) => 400
    case CourseNotFound => 404
    case Created(_, _) => 201
  }

  /** The id of the student an order from `email` is placed for: the
      earliest one registered under it, or the next id when there is none. */
  function BuyerId(store: MemStorage, email: string): (id: int)
    reads store
    requires store.Valid()
    ensures store.GetStudentByEmail(email).Some? ==> id == store.GetStudentByEmail(email).value.id
    ensures store.GetStudentByEmail(email).Some? ==> id in store.students.rows && store.students.rows[id].email == email
    ensures store.GetStudentByEmail(email).None? ==> id == store.currentStudentId && id !in store.students.rows
  {
    match store.GetStudentByEmail(email)
    case Some(s) => s.id
    case None =>
      assert store.currentStudentId !in store.students.rows;
      store.currentStudentId
  }

  /** The successful tail of the purchase handler: find or register the
      student, store a pending order at the course's current price, and
      build the notification. */
  method PlaceOrder(store: MemStorage, p: PurchaseData, course: Course) returns (orderId: int, message: string)
    requires store.Valid()
    modifies store`students, store`currentStudentId, store`orders, store`currentOrderId
    ensures store.Valid()
    ensures old(store.GetStudentByEmail(p.email)).Some? ==>
              store.students == old(store.students) && store.currentStudentId == old(store.currentStudentId)
    ensures old(store.GetStudentByEmail(p.email)).None? ==>
              && store.students == old(store.students).Set(old(store.currentStudentId),
                   Student(old(store.currentStudentId), p.name, p.email, p.mobile))
              && store.currentStudentId == old(store.currentStudentId) + 1
    ensures orderId == old(store.currentOrderId) && store.currentOrderId == orderId + 1
    ensures store.orders == old(store.orders).Set(orderId,
              Order(orderId, old(BuyerId(store, p.email)), course.id, p.utrNumber, course.price, Pending))
    ensures message == Message(Notice(p.name, p.email, p.mobile, course.title, course.price, p.utrNumber, orderId))
    // the students under the email: unchanged when there were some, otherwise exactly the new one
    ensures store.StudentsWithEmail(p.email) ==
              if old(store.StudentsWithEmail(p.email)) == [] then [Student(old(store.currentStudentId), p.name, p.email, p.mobile)]
              else old(store.StudentsWithEmail(p.email))
  {
    ghost var before := store.students;
    var student := store.GetStudentByEmail(p.email);
    if student.None? {
      var created := store.CreateStudent(StudentInput(p.name, p.email, p.mobile));
      student := Some(created);
      FilterAppend(HasEmail(p.email), before.Values(), created);
    }
    var order := store.CreateOrder(OrderInput(student.value.id, course.id, p.utrNumber, course.price, Some(Pending)));
    orderId := order.id;
    message := Message(Notice(p.name, p.email, p.mobile, course.title, course.price, p.utrNumber, orderId));
  }

  /** POST /api/purchase: validate, look the course up (active or not), then
      place the order. Nothing changes unless the purchase succeeds. */
  method Purchase(store: MemStorage, body: PurchaseBody, validEmail: string -> bool) returns (r: PurchaseResult)
    requires store.Valid()
    modifies store`students, store`currentStudentId, store`orders, store`currentOrderId
    ensures store.Valid()
    ensures r.Invalid? <==> ParsePurchase(body, validEmail).Failure?
    ensures r.Invalid? ==> r.errors == ParsePurchase(body, validEmail).error
    ensures r.CourseNotFound? <==>
              ParsePurchase(body, validEmail).Success? &&
              old(CourseFor(store, ParsePurchase(body, validEmail).value.courseId)).None?
    ensures !r.Created? ==>
              && store.students == old(store.students) && store.currentStudentId == old(store.currentStudentId)
              && store.orders == old(store.orders) && store.currentOrderId == old(store.currentOrderId)
    ensures r.Created? ==>
              var p := ParsePurchase(body, validEmail).value;
              var course := old(CourseFor(store, p.courseId)).value;
              && r.orderId == old(store.currentOrderId)
              && store.orders == old(store.orders).Set(r.orderId,
                   Order(r.orderId, old(BuyerId(store, p.email)), course.id, p.utrNumber, course.price, Pending))
              && store.currentOrderId == r.orderId + 1
              && (old(store.GetStudentByEmail(p.email)).Some? ==>
                    store.students == old(store.students) && store.currentStudentId == old(store.currentStudentId))
              && (old(store.GetStudentByEmail(p.email)).None? ==>
                    && store.students == old(store.students).Set(old(store.currentStudentId),
                         Student(old(store.currentStudentId), p.name, p.email, p.mobile))
                    && store.currentStudentId == old(store.currentStudentId) + 1)
              && store.StudentsWithEmail(p.email) ==
                   (if old(store.StudentsWithEmail(p.email)) == [] then [Student(old(store.currentStudentId), p.name, p.email, p.mobile)]
                    else old(store.StudentsWithEmail(p.email)))
              && r.message == Message(Notice(p.name, p.email, p.mobile, course.title, course.price, p.utrNumber, r.orderId))
  {
    var parsed := ParsePurchase(body, validEmail);
    if parsed.Failure? {
      return Invalid(parsed.error);
    }
    var course := CourseFor(store, parsed.value.courseId);
    if course.None? {
      return CourseNotFound;
    }
    var orderId, message := PlaceOrder(store, parsed.value, course.value);
    r := Created(orderId, message);
  }

  /** GET /api/courses/:id; `id` is `parseInt` of the path, `None` for NaN. */
  function GetCourseRoute(store: MemStorage, id: Option<int>): (r: Response<Course>)
    reads store
    requires store.Valid()
    ensures r.status == 404 <==> id.None? || id.value !in store.courses.rows
    ensures r.status == 200 <==> r.body.Some?
    ensures r.body.Some? ==> r.body.value == store.courses.rows[id.value] && r.body.value.id == id.value
    ensures id.Some? && id.value in store.courses.rows ==> r == Response(200, Some(store.courses.rows[id.value]))
  {
    if id.None? then Response(404, None)
    else
      match store.GetCourse(id.value)
      case None => Response(404, None)
      case Some(c) => Response(200, Some(c))
  }

  /** POST /api/courses; `input` is `None` when the body fails the insert
      schema. The insert schema has no `imageUrl` column, so parsing drops
      any image the body names and the stored course gets none. */
  method CreateCourseRoute(store: MemStorage, input: Option<CourseInput>) returns (r: Response<Course>)
    requires store.Valid()
    modifies store`courses, store`currentCourseId
    ensures store.Valid()
    ensures r.status == 400 <==> input.None?
    ensures input.None? ==> store.courses == old(store.courses) && store.currentCourseId == old(store.currentCourseId)
    ensures input.Some? ==>
              && r.status == 201
              && r.body == Some(NewCourse(old(store.currentCourseId), input.value.(imageUrl := None)))
              && r.body.value.imageUrl.None?
              && store.courses == old(store.courses).Set(old(store.currentCourseId), r.body.value)
              && store.currentCourseId == old(store.currentCourseId) + 1
  {
    if input.None? {
      return Response(400, None);
    }
    var c := store.CreateCourse(input.value.(imageUrl := None));
    r := Response(201, Some(c));
  }

  /** PATCH /api/courses/:id; the body is parsed before the lookup, so a bad
      body is 400 whatever the id. */
  method UpdateCourseRoute(store: MemStorage, id: Option<int>, patch: Option<CoursePatch>) returns (r: Response<Course>)
    requires store.Valid()
    modifies store`courses
    ensures store.Valid()
    ensures r.status == 400 <==> patch.None?
    ensures r.status == 404 <==> patch.Some? && (id.None? || id.value !in old(store.courses.rows))
    ensures r.status != 200 ==> store.courses == old(store.courses)
    ensures r.status == 200 <==> patch.Some? && id.Some? && id.value in old(store.courses.rows)
    ensures r.status == 200 ==>
              && r.body == Some(ApplyPatch(old(store.courses.rows[id.value]), patch.value))
              && store.courses == old(store.courses).Set(id.value, r.body.value)
  {
    if patch.None? {
      return Response(400, None);
    }
    if id.None? {
      return Response(404, None);
    }
    var updated := store.UpdateCourse(id.value, patch.value);
    if updated.None? {
      return Response(404, None);
    }
    r := Response(200, updated);
  }

  /** DELETE /api/courses/:id. */
  method DeleteCourseRoute(store: MemStorage, id: Option<int>) returns (status: int)
    requires store.Valid()
    modifies store`courses
    ensures store.Valid()
    ensures status == 404 || status == 200
    ensures status == 404 <==> id.None? || id.value !in old(store.courses.rows)
    ensures status == 404 ==> store.courses == old(store.courses)
    ensures status == 200 ==>
              store.courses == old(store.courses).Set(id.value, old(store.courses.rows[id.value]).(isActive := false))
  {
    if id.None? {
      return 404;
    }
    var ok := store.DeleteCourse(id.value);
    status := if ok then 200 else 404;
  }

  /** PATCH /api/orders/:id/status: the body's status is stored as given,
      without checking it against pending, verified or rejected. */
  method UpdateOrderStatusRoute(store: MemStorage, id: Option<int>, status: string) returns (r: Response<Order>)
    requires store.Valid()
    modifies store`orders
    ensures store.Valid()
    ensures r.status == 404 <==> id.None? || id.value !in old(store.orders.rows)
    ensures r.status == 404 ==> store.orders == old(store.orders)
    ensures r.status != 404 ==>
              && r.status == 200
              && r.body == Some(old(store.orders.rows[id.value]).(status := status))
              && store.orders == old(store.orders).Set(id.value, r.body.value)
  {
    if id.None? {
      return Response(404, None);
    }
    var updated := store.UpdateOrderStatus(id.value, status);
    if updated.None? {
      return Response(404, None);
    }
    r := Response(200, updated);
  }
}
