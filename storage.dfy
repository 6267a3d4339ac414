/** `MemStorage` (server/storage.ts): three tables, courses, students and
    orders, each with its own id counter that starts at 1 and only goes up. */
module Storage {
  import opened Wrappers
  import opened Tables
  import opened Schema

  function IsActive(c: Course): bool {
    c.isActive
  }

  /** The test `getStudentByEmail` applies: exact string equality. */
  function HasEmail(email: string): Student -> bool {
    (s: Student) => s.email == email
  }

  function PlacedBy(studentId: int): Order -> bool {
    (o: Order) => o.studentId == studentId
  }

  /** The six courses the store is seeded with, in seeding order. Their
      text fields are named constants below. */
  function DefaultCourses(): (d: seq<CourseInput>)
    ensures |d| == 6
    ensures forall i :: 0 <= i < |d| ==> d[i].isActive == Some(true)
  {
    [ CourseInput(EthicalHackingFundamentalsTitle, EthicalHackingFundamentalsDescription, 999, 15999, "40+ Hours", "Beginner",
                  EthicalHackingFundamentalsFeatures, Some(EthicalHackingFundamentalsImage), Some(true)),
      CourseInput(AdvancedPenetrationTestingTitle, AdvancedPenetrationTestingDescription, 1499, 24999, "60+ Hours", "Advanced",
                  AdvancedPenetrationTestingFeatures, Some(AdvancedPenetrationTestingImage), Some(true)),
      CourseInput(WebApplicationSecurityTitle, WebApplicationSecurityDescription, 799, 12999, "35+ Hours", "Intermediate",
                  WebApplicationSecurityFeatures, Some(WebApplicationSecurityImage), Some(true)),
      CourseInput(NetworkSecurityMasteryTitle, NetworkSecurityMasteryDescription, 1199, 18999, "45+ Hours", "Intermediate",
                  NetworkSecurityMasteryFeatures, Some(NetworkSecurityMasteryImage), Some(true)),
      CourseInput(DigitalForensicsInvestigationTitle, DigitalForensicsInvestigationDescription, 1299, 21999, "50+ Hours", "Advanced",
                  DigitalForensicsInvestigationFeatures, Some(DigitalForensicsInvestigationImage), Some(true)),
      CourseInput(CloudSecurityArchitectureTitle, CloudSecurityArchitectureDescription, 1599, 25999, "55+ Hours", "Expert",
                  CloudSecurityArchitectureFeatures, Some(CloudSecurityArchitectureImage), Some(true)) ]
  }

  const EthicalHackingFundamentalsTitle: string := "Ethical Hacking Fundamentals"
  const EthicalHackingFundamentalsDescription: string :=
    "Complete introduction to ethical hacking with hands-on labs and real-world scenarios. Learn penetration testing, vulnerability assessment, and security analysis."
  const EthicalHackingFundamentalsFeatures: seq<string> :=
    ["Network Security", "Web App Testing", "Linux Basics", "Tool Mastery", "OWASP Top 10", "Certificate"]
  const EthicalHackingFundamentalsImage: string :=
    "https://images.unsplash.com/photo-1550751827-4bd374c3f58b?w=400&h=250&fit=crop"

  const AdvancedPenetrationTestingTitle: string := "Advanced Penetration Testing"
  const AdvancedPenetrationTestingDescription: string :=
    "Deep dive into advanced penetration testing techniques and methodologies. Master professional-grade security testing."
  const AdvancedPenetrationTestingFeatures: seq<string> :=
    ["Advanced Exploits", "Buffer Overflows", "Privilege Escalation", "Report Writing", "Enterprise Testing", "Certificate"]
  const AdvancedPenetrationTestingImage: string :=
    "https://images.unsplash.com/photo-1563013544-824ae1b704d3?w=400&h=250&fit=crop"

  const WebApplicationSecurityTitle: string := "Web Application Security"
  const WebApplicationSecurityDescription: string :=
    "Comprehensive web application security testing and secure coding practices. Learn to identify and fix web vulnerabilities."
  const WebApplicationSecurityFeatures: seq<string> :=
    ["SQL Injection", "XSS Attacks", "Authentication Bypass", "API Security", "Secure Coding", "Certificate"]
  const WebApplicationSecurityImage: string :=
    "https://images.unsplash.com/photo-1558494949-ef010cbdcc31?w=400&h=250&fit=crop"

  const NetworkSecurityMasteryTitle: string := "Network Security Mastery"
  const NetworkSecurityMasteryDescription: string :=
    "Master network security concepts, protocols, and implementation strategies. Build robust network defenses."
  const NetworkSecurityMasteryFeatures: seq<string> :=
    ["Firewall Configuration", "IDS/IPS Setup", "VPN Security", "Network Forensics", "Wireshark Analysis", "Certificate"]
  const NetworkSecurityMasteryImage: string :=
    "https://images.unsplash.com/photo-1544197150-b99a580bb7a8?w=400&h=250&fit=crop"

  const DigitalForensicsInvestigationTitle: string := "Digital Forensics Investigation"
  const DigitalForensicsInvestigationDescription: string :=
    "Professional digital forensics investigation techniques, evidence collection, and court-ready reporting."
  const DigitalForensicsInvestigationFeatures: seq<string> :=
    ["Evidence Acquisition", "File System Analysis", "Memory Forensics", "Mobile Forensics", "Report Writing", "Certificate"]
  const DigitalForensicsInvestigationImage: string :=
    "https://images.unsplash.com/photo-1573804633927-bfcbcd909acd?w=400&h=250&fit=crop"

  const CloudSecurityArchitectureTitle: string := "Cloud Security Architecture"
  const CloudSecurityArchitectureDescription: string :=
    "Comprehensive cloud security for AWS, Azure, GCP including compliance, monitoring, and incident response."
  const CloudSecurityArchitectureFeatures: seq<string> :=
    ["Multi-Cloud Security", "Compliance", "DevSecOps", "Container Security", "Serverless Security", "Certificate"]
  const CloudSecurityArchitectureImage: string :=
    "https://images.unsplash.com/photo-1451187580459-43490279c0fa?w=400&h=250&fit=crop"

  /** The courses `createCourse` makes from `inputs` when the counter starts at `first`. */
  function Numbered(first: int, inputs: seq<CourseInput>): (cs: seq<Course>)
    ensures |cs| == |inputs|
    ensures forall j :: 0 <= j < |inputs| ==> cs[j] == NewCourse(first + j, inputs[j])
  {
    seq(|inputs|, j requires 0 <= j < |inputs| => NewCourse(first + j, inputs[j]))
  }

  /** In an ordered table, every key smaller than the key at position `i` sits before `i`. */
  lemma KeysBefore<T>(t: Table<T>, next: int, i: int)
    requires Ordered(t, next) && 0 <= i < |t.keys|
    ensures forall k :: k in t.rows && k < t.keys[i] ==> k in t.keys[..i]
  {
    forall k | k in t.rows && k < t.keys[i] ensures k in t.keys[..i] {
      var j :| 0 <= j < |t.keys| && t.keys[j] == k;
      assert t.keys[..i][j] == k;
    }
  }

  class MemStorage {
    var courses: Table<Course>
    var students: Table<Student>
    var orders: Table<Order>
    var currentCourseId: int
    var currentStudentId: int
    var currentOrderId: int

    /** Each table is keyed by its records' ids, the ids ascend in insertion
        order and all lie below the table's counter. */
    ghost predicate Valid()
      reads this
    {
      && 1 <= currentCourseId && 1 <= currentStudentId && 1 <= currentOrderId
      && Ordered(courses, currentCourseId)
      && Ordered(students, currentStudentId)
      && Ordered(orders, currentOrderId)
      && (forall k :: k in courses.rows ==> courses.rows[k].id == k)
      && (forall k :: k in students.rows ==> students.rows[k].id == k)
      && (forall k :: k in orders.rows ==> orders.rows[k].id == k)
    }

    /** A fresh store lists exactly the six seed courses, under ids 1 to 6,
        all active, and holds no students and no orders. */
    constructor ()
      ensures Valid()
      ensures courses.Values() == Numbered(1, DefaultCourses())
      ensures GetCourses() == courses.Values()
      ensures students == Empty() && orders == Empty()
      ensures currentCourseId == 7 && currentStudentId == 1 && currentOrderId == 1
    {
      courses, students, orders := Empty(), Empty(), Empty();
      currentCourseId, currentStudentId, currentOrderId := 1, 1, 1;
      new;
      var defaults := DefaultCourses();
      SeedCourses(defaults);
      assert courses.Values() == Numbered(1, defaults);
      forall i | 0 <= i < |courses.Values()| ensures IsActive(courses.Values()[i]) {
        assert courses.Values()[i] == NewCourse(1 + i, defaults[i]);
      }
      FilterAll(IsActive, courses.Values());
    }

    /** `seedCourses`: creates the given courses one after another through
        `createCourse`, so they are listed after the existing ones and take
        consecutive ids from the counter. */
    method SeedCourses(defaults: seq<CourseInput>)
      requires Valid()
      modifies this`courses, this`currentCourseId
      ensures Valid()
      ensures currentCourseId == old(currentCourseId) + |defaults|
      ensures courses.Values() == old(courses.Values()) + Numbered(old(currentCourseId), defaults)
    {
      ghost var c0 := currentCourseId;
      for i := 0 to |defaults|
        invariant Valid()
        invariant currentCourseId == c0 + i
        invariant courses.Values() == old(courses.Values()) + Numbered(c0, defaults[..i])
      {
        var c := CreateCourse(defaults[i]);
        assert Numbered(c0, defaults[..i + 1]) == Numbered(c0, defaults[..i]) + [c];
      }
      assert defaults[..|defaults|] == defaults;
    }

    /** `getCourses`: the active courses, in insertion order. */
    function GetCourses(): (r: seq<Course>)
      reads this
      requires Valid()
      ensures forall c :: c in r ==> c.isActive && c.id in courses.rows && courses.rows[c.id] == c
      ensures forall k :: k in courses.rows && courses.rows[k].isActive ==> courses.rows[k] in r
      ensures IsSubsequence(r, courses.Values())
    {
      ValuesAreRows(courses);
      FilterIsSubsequence(IsActive, courses.Values());
      Filter(IsActive, courses.Values())
    }

    /** `getCourse`: the course stored under `id`, active or not. */
    function GetCourse(id: int): (r: Option<Course>)
      reads this
      requires Valid()
      ensures r.Some? <==> id in courses.rows
      ensures r.Some? ==> r.value.id == id && r.value == courses.rows[id]
    {
      courses.Get(id)
    }

    /** `createCourse`: the counter's value becomes the id, and the counter moves on. */
    method CreateCourse(input: CourseInput) returns (c: Course)
      requires Valid()
      modifies this`courses, this`currentCourseId
      ensures Valid()
      ensures c == NewCourse(old(currentCourseId), input)
      ensures c.id !in old(courses.rows) && forall k :: k in old(courses.rows) ==> k < c.id
      ensures currentCourseId == c.id + 1
      ensures courses == old(courses).Set(c.id, c)
    {
      var id := currentCourseId;
      currentCourseId := currentCourseId + 1;
      c := NewCourse(id, input);
      SetAtCounter(courses, id, c);
      courses := courses.Set(id, c);
    }

    /** `updateCourse`: merges the patch into the stored course in place. */
    method UpdateCourse(id: int, patch: CoursePatch) returns (r: Option<Course>)
      requires Valid()
      modifies this`courses
      ensures Valid()
      ensures r.None? <==> id !in old(courses.rows)
      ensures r.None? ==> courses == old(courses)
      ensures r.Some? ==> r.value == ApplyPatch(old(courses.rows[id]), patch)
      ensures r.Some? ==> courses == old(courses).Set(id, r.value)
      ensures courses.keys == old(courses.keys)
    {
      var found := courses.Get(id);
      if found.None? {
        return None;
      }
      var updated := ApplyPatch(found.value, patch);
      SetPresent(courses, currentCourseId, id, updated);
      courses := courses.Set(id, updated);
      r := Some(updated);
    }

    /** `deleteCourse`: a soft delete that only clears `isActive`. */
    method DeleteCourse(id: int) returns (ok: bool)
      requires Valid()
      modifies this`courses
      ensures Valid()
      ensures ok <==> id in old(courses.rows)
      ensures !ok ==> courses == old(courses)
      ensures ok ==> courses == old(courses).Set(id, old(courses.rows[id]).(isActive := false))
      ensures ok ==> GetCourse(id) == Some(old(courses.rows[id]).(isActive := false))
      ensures ok ==> forall c :: c in GetCourses() ==> c.id != id
    {
      var found := courses.Get(id);
      if found.None? {
        return false;
      }
      var updated := found.value.(isActive := false);
      SetPresent(courses, currentCourseId, id, updated);
      courses := courses.Set(id, updated);
      ok := true;
    }

    /** `getStudents`: every student, in insertion order, which is ascending id order. */
    function GetStudents(): (r: seq<Student>)
      reads this
      requires Valid()
      ensures forall s :: s in r ==> s.id in students.rows && students.rows[s.id] == s
      ensures forall k :: k in students.rows ==> students.rows[k] in r
      ensures forall i, j :: 0 <= i < j < |r| ==> r[i].id < r[j].id
    {
      ValuesAreRows(students);
      students.Values()
    }

    /** `getStudent`. */
    function GetStudent(id: int): (r: Option<Student>)
      reads this
      requires Valid()
      ensures r.Some? <==> id in students.rows
      ensures r.Some? ==> r.value.id == id && r.value == students.rows[id]
    {
      students.Get(id)
    }

    /** `getStudentByEmail`: the earliest-created student with exactly this email, if any. */
    function GetStudentByEmail(email: string): (r: Option<Student>)
      reads this
      requires Valid()
      ensures r.Some? ==> r.value.email == email && r.value.id in students.rows && students.rows[r.value.id] == r.value
      ensures r.Some? ==> forall k :: k in students.rows && k < r.value.id ==> students.rows[k].email != email
      ensures r.None? <==> forall k :: k in students.rows ==> students.rows[k].email != email
    {
      ValuesAreRows(students);
      var vs := students.Values();
      match Find(HasEmail(email), vs)
      case None => None
      case Some(i) =>
        KeysBefore(students, currentStudentId, i);
        Some(vs[i])
    }

    /** The students registered under `email`, in insertion order. */
    function StudentsWithEmail(email: string): (r: seq<Student>)
      reads this
      requires Valid()
      ensures forall s :: s in r ==> s.email == email && s.id in students.rows && students.rows[s.id] == s
      ensures forall k :: k in students.rows && students.rows[k].email == email ==> students.rows[k] in r
      ensures IsSubsequence(r, students.Values())
      ensures r == [] <==> GetStudentByEmail(email).None?
    {
      ValuesAreRows(students);
      FindNoneIffFilterEmpty(HasEmail(email), students.Values());
      FilterIsSubsequence(HasEmail(email), students.Values());
      Filter(HasEmail(email), students.Values())
    }

    /** `createStudent`: no uniqueness check on the email. */
    method CreateStudent(input: StudentInput) returns (s: Student)
      requires Valid()
      modifies this`students, this`currentStudentId
      ensures Valid()
      ensures s == NewStudent(old(currentStudentId), input)
      ensures s.id !in old(students.rows) && forall k :: k in old(students.rows) ==> k < s.id
      ensures currentStudentId == s.id + 1
      ensures students == old(students).Set(s.id, s)
    {
      var id := currentStudentId;
      currentStudentId := currentStudentId + 1;
      s := NewStudent(id, input);
      SetAtCounter(students, id, s);
      students := students.Set(id, s);
    }

    /** `getOrders`: every order, in insertion order, which is ascending id order. */
    function GetOrders(): (r: seq<Order>)
      reads this
      requires Valid()
      ensures forall o :: o in r ==> o.id in orders.rows && orders.rows[o.id] == o
      ensures forall k :: k in orders.rows ==> orders.rows[k] in r
      ensures forall i, j :: 0 <= i < j < |r| ==> r[i].id < r[j].id
    {
      ValuesAreRows(orders);
      orders.Values()
    }

    /** `getOrder`. */
    function GetOrder(id: int): (r: Option<Order>)
      reads this
      requires Valid()
      ensures r.Some? <==> id in orders.rows
      ensures r.Some? ==> r.value.id == id && r.value == orders.rows[id]
    {
      orders.Get(id)
    }

    /** `createOrder`: the counter's value becomes the id; status defaults to "pending". */
    method CreateOrder(input: OrderInput) returns (o: Order)
      requires Valid()
      modifies this`orders, this`currentOrderId
      ensures Valid()
      ensures o == NewOrder(old(currentOrderId), input)
      ensures o.id !in old(orders.rows) && forall k :: k in old(orders.rows) ==> k < o.id
      ensures currentOrderId == o.id + 1
      ensures orders == old(orders).Set(o.id, o)
    {
      var id := currentOrderId;
      currentOrderId := currentOrderId + 1;
      o := NewOrder(id, input);
      SetAtCounter(orders, id, o);
      orders := orders.Set(id, o);
    }

    /** `updateOrderStatus`: overwrites the status, whatever string it is. */
    method UpdateOrderStatus(id: int, status: string) returns (r: Option<Order>)
      requires Valid()
      modifies this`orders
      ensures Valid()
      ensures r.None? <==> id !in old(orders.rows)
      ensures r.None? ==> orders == old(orders)
      ensures r.Some? ==> r.value == old(orders.rows[id]).(status := status)
      ensures r.Some? ==> orders == old(orders).Set(id, r.value)
      ensures orders.keys == old(orders.keys)
    {
      var found := orders.Get(id);
      if found.None? {
        return None;
      }
      var updated := found.value.(status := status);
      SetPresent(orders, currentOrderId, id, updated);
      orders := orders.Set(id, updated);
      r := Some(updated);
    }

    /** `getOrdersByStudent`: the orders placed under `studentId`, in insertion order. */
    function GetOrdersByStudent(studentId: int): (r: seq<Order>)
      reads this
      requires Valid()
      ensures forall o :: o in r ==> o.studentId == studentId && o.id in orders.rows && orders.rows[o.id] == o
      ensures forall k :: k in orders.rows && orders.rows[k].studentId == studentId ==> orders.rows[k] in r
      ensures IsSubsequence(r, orders.Values())
    {
      ValuesAreRows(orders);
      FilterIsSubsequence(PlacedBy(studentId), orders.Values());
      Filter(PlacedBy(studentId), orders.Values())
    }
  }
}
