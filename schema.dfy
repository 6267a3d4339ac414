/** The three record shapes of the store and the inputs they are built from
    (shared/schema.ts). Timestamps (`createdAt`) are not modelled. */
module Schema {
  import opened Wrappers

  /** A stored course. `imageUrl` is not a column of the table definition but
      `createCourse` attaches it to every stored course; `None` is `null`. */
  datatype Course = Course(
    id: int,
    title: string,
    description: string,
    price: int,
    originalPrice: int,
    duration: string,
    level: string,
    features: seq<string>,
    imageUrl: Option<string>,
    isActive: bool)

  /** `InsertCourse`: a course without its id; `imageUrl` and `isActive` may be omitted. */
  datatype CourseInput = CourseInput(
    title: string,
    description: string,
    price: int,
    originalPrice: int,
    duration: string,
    level: string,
    features: seq<string>,
    imageUrl: Option<string>,
    isActive: Option<bool>)

  /** `Partial<InsertCourse>`: every field optional; neither `id` nor `imageUrl` is a patchable field. */
  datatype CoursePatch = CoursePatch(
    title: Option<string>,
    description: Option<string>,
    price: Option<int>,
    originalPrice: Option<int>,
    duration: Option<string>,
    level: Option<string>,
    features: Option<seq<string>>,
    isActive: Option<bool>)

  datatype Student = Student(id: int, name: string, email: string, mobile: string)

  datatype StudentInput = StudentInput(name: string, email: string, mobile: string)

  /** A stored order. `status` is free text: nothing restricts it to pending, verified or rejected. */
  datatype Order = Order(id: int, studentId: int, courseId: int, utrNumber: string, amount: int, status: string)

  datatype OrderInput = OrderInput(studentId: int, courseId: int, utrNumber: string, amount: int, status: Option<string>)

  /** The insert fields of a stored course, with the defaults made explicit. */
  function CourseFields(c: Course): CourseInput {
    CourseInput(c.title, c.description, c.price, c.originalPrice, c.duration, c.level, c.features,
                c.imageUrl, Some(c.isActive))
  }

  function StudentFields(s: Student): StudentInput {
    StudentInput(s.name, s.email, s.mobile)
  }

  function OrderFields(o: Order): OrderInput {
    OrderInput(o.studentId, o.courseId, o.utrNumber, o.amount, Some(o.status))
  }

  /** The record `createCourse` stores: the input spread, the id, `isActive`
      defaulting to true and `imageUrl` to null. */
  function NewCourse(id: int, input: CourseInput): (c: Course)
    ensures c.id == id
    ensures c.isActive <==> input.isActive != Some(false)
    ensures c.imageUrl == input.imageUrl
    ensures CourseFields(c) == input.(isActive := Some(c.isActive))
  {
    Course(id, input.title, input.description, input.price, input.originalPrice, input.duration,
           input.level, input.features, input.imageUrl, input.isActive.GetOr(true))
  }

  /** The record `createStudent` stores: the input spread and the id. */
  function NewStudent(id: int, input: StudentInput): (s: Student)
    ensures s.id == id && StudentFields(s) == input
  {
    Student(id, input.name, input.email, input.mobile)
  }

  /** The status every order starts in. */
  const Pending: string := "pending"

  /** The record `createOrder` stores: the input spread, the id, and `status` defaulting to "pending". */
  function NewOrder(id: int, input: OrderInput): (o: Order)
    ensures o.id == id
    ensures input.status.None? ==> o.status == Pending
    ensures input.status.Some? ==> o.status == input.status.value
    ensures OrderFields(o) == input.(status := Some(o.status))
  {
    Order(id, input.studentId, input.courseId, input.utrNumber, input.amount, input.status.GetOr(Pending))
  }

  /** `{ ...course, ...updateData }`: the supplied fields win. */
  function ApplyPatch(c: Course, p: CoursePatch): (r: Course)
    // id and imageUrl are not patchable
    ensures r.id == c.id && r.imageUrl == c.imageUrl
    // every supplied field overwrites the stored one; every other field keeps its value
    ensures (p.title.Some? ==> r.title == p.title.value) && (p.title.None? ==> r.title == c.title)
    ensures (p.description.Some? ==> r.description == p.description.value) && (p.description.None? ==> r.description == c.description)
    ensures (p.price.Some? ==> r.price == p.price.value) && (p.price.None? ==> r.price == c.price)
    ensures (p.originalPrice.Some? ==> r.originalPrice == p.originalPrice.value) && (p.originalPrice.None? ==> r.originalPrice == c.originalPrice)
    ensures (p.duration.Some? ==> r.duration == p.duration.value) && (p.duration.None? ==> r.duration == c.duration)
    ensures (p.level.Some? ==> r.level == p.level.value) && (p.level.None? ==> r.level == c.level)
    ensures (p.features.Some? ==> r.features == p.features.value) && (p.features.None? ==> r.features == c.features)
    ensures (p.isActive.Some? ==> r.isActive == p.isActive.value) && (p.isActive.None? ==> r.isActive == c.isActive)
  {
    c.(title := p.title.GetOr(c.title),
       description := p.description.GetOr(c.description),
       price := p.price.GetOr(c.price),
       originalPrice := p.originalPrice.GetOr(c.originalPrice),
       duration := p.duration.GetOr(c.duration),
       level := p.level.GetOr(c.level),
       features := p.features.GetOr(c.features),
       isActive := p.isActive.GetOr(c.isActive))
  }

  /** Sending the same patch twice leaves the course as the first time. */
  lemma PatchIdempotent(c: Course, p: CoursePatch)
    ensures ApplyPatch(ApplyPatch(c, p), p) == ApplyPatch(c, p)
  {
  }

  /** An empty patch changes nothing. */
  lemma EmptyPatchIsIdentity(c: Course)
    ensures ApplyPatch(c, CoursePatch(None, None, None, None, None, None, None, None)) == c
  {
  }
}
