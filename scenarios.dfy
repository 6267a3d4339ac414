/** Client walks through the store and the purchase handler: a purchase
    against a fresh store, repeated purchases under one email, a price change
    after an order, and a purchase of a withdrawn course. */
module Scenarios {
  import opened Wrappers
  import opened Tables
  import opened Schema
  import opened Storage
  import opened Notification
  import opened Routes

  const BuyerName: string := "Asha"
  const BuyerEmail: string := "asha@mail.in"
  const BuyerMobile: string := "9876543210"
  const BuyerUtr: string := "123456789012"

  function BuyerBody(courseId: int): PurchaseBody {
    PurchaseBody(JString(BuyerName), JString(BuyerEmail), JString(BuyerMobile), JNumber(Whole(courseId)), JString(BuyerUtr))
  }

  /** In a fresh store, course 1 is the first seed course. */
  lemma FreshFirstCourse(store: MemStorage)
    requires store.Valid() && store.courses.Values() == Numbered(1, DefaultCourses())
    ensures 1 in store.courses.rows
    ensures store.courses.rows[1].title == EthicalHackingFundamentalsTitle
    ensures store.courses.rows[1].price == 999
  {
    var vs := store.courses.Values();
    assert vs[0] == NewCourse(1, DefaultCourses()[0]);
    var k := store.courses.keys[0];
    assert store.courses.rows[k] == vs[0];
    assert store.courses.rows[k].id == k;
  }

  /** The buyer's body passes the schema whatever course it names. */
  lemma BuyerBodyParses(courseId: int, validEmail: string -> bool)
    requires validEmail(BuyerEmail)
    ensures ParsePurchase(BuyerBody(courseId), validEmail) ==
              Success(PurchaseData(BuyerName, BuyerEmail, BuyerMobile, Whole(courseId), BuyerUtr))
  {
    assert |BuyerName| == 4 && |BuyerMobile| == 10 && |BuyerUtr| == 12;
  }

  /** The first notification carries no line feed in any field. */
  lemma FirstNoticeSingleLine()
    ensures SingleLine(Notice(BuyerName, BuyerEmail, BuyerMobile, EthicalHackingFundamentalsTitle, 999, BuyerUtr, 1))
  {
    BuyerSingleLine();
    TitleSingleLine();
  }

  lemma BuyerSingleLine()
    ensures '\n' !in BuyerName && '\n' !in BuyerEmail && '\n' !in BuyerMobile && '\n' !in BuyerUtr
  {
  }

  lemma TitleSingleLine()
    ensures '\n' !in EthicalHackingFundamentalsTitle
  {
  }

  /** A well-formed purchase of course 1 from a fresh store creates order 1
      for student 1 at the seed price, and its notification reads back. */
  method FirstPurchase(validEmail: string -> bool) returns (r: PurchaseResult)
    requires validEmail(BuyerEmail)
    ensures r.Created? && r.orderId == 1
    ensures ReadMessage(r.message) ==
              Some(Notice(BuyerName, BuyerEmail, BuyerMobile, EthicalHackingFundamentalsTitle, 999, BuyerUtr, 1))
  {
    var store := new MemStorage();
    FreshFirstCourse(store);
    BuyerBodyParses(1, validEmail);
    r := Purchase(store, BuyerBody(1), validEmail);
    FirstNoticeSingleLine();
    ReadMessageInverts(Notice(BuyerName, BuyerEmail, BuyerMobile, EthicalHackingFundamentalsTitle, 999, BuyerUtr, 1));
  }

  /** Two purchases in a row under one email, from a fresh store, leave at
      most one student with that email, whatever else the bodies hold. */
  method SameEmailTwice(email: string, first: PurchaseBody, second: PurchaseBody, validEmail: string -> bool)
    returns (holders: seq<Student>)
    requires first.email == JString(email) && second.email == JString(email)
    ensures |holders| <= 1
    ensures forall s :: s in holders ==> s.email == email
  {
    var store := new MemStorage();
    assert store.StudentsWithEmail(email) == [];
    var r1 := Purchase(store, first, validEmail);
    assert |store.StudentsWithEmail(email)| <= 1;
    var r2 := Purchase(store, second, validEmail);
    holders := store.StudentsWithEmail(email);
  }

  /** The buyer purchases course 1 from a store whose course 1 is the first seed course. */
  method BuyFirstCourse(store: MemStorage, validEmail: string -> bool) returns (orderId: int)
    requires store.Valid() && validEmail(BuyerEmail)
    requires 1 in store.courses.rows && store.courses.rows[1].price == 999
    modifies store`students, store`currentStudentId, store`orders, store`currentOrderId
    ensures store.Valid()
    ensures orderId in store.orders.rows && store.orders.rows[orderId].amount == 999
    ensures store.orders.rows[orderId].courseId == 1
  {
    BuyerBodyParses(1, validEmail);
    var r := Purchase(store, BuyerBody(1), validEmail);
    orderId := r.orderId;
  }

  /** An administrator sets the price of course 1 to `price`. */
  method Reprice(store: MemStorage, price: int)
    requires store.Valid() && 1 in store.courses.rows
    modifies store`courses
    ensures store.Valid()
    ensures 1 in store.courses.rows && store.courses.rows[1].price == price
  {
    var patch := CoursePatch(None, None, Some(price), None, None, None, None, None);
    var updated := UpdateCourseRoute(store, Some(1), Some(patch));
  }

  /** An order keeps the price it was placed at when the course's price changes afterwards. */
  method PriceChangeAfterOrder(validEmail: string -> bool) returns (amount: int, price: int)
    requires validEmail(BuyerEmail)
    ensures amount == 999 && price == 1
  {
    var store := new MemStorage();
    FreshFirstCourse(store);
    var orderId := BuyFirstCourse(store, validEmail);
    Reprice(store, 1);
    amount := store.GetOrder(orderId).value.amount;
    price := store.GetCourse(1).value.price;
  }

  /** A deleted course drops out of the listing but can still be bought. */
  method PurchaseWithdrawnCourse(validEmail: string -> bool) returns (status: int, listed: seq<Course>, r: PurchaseResult)
    requires validEmail(BuyerEmail)
    ensures status == 200
    ensures forall c :: c in listed ==> c.id != 1
    ensures r.Created?
  {
    var store := new MemStorage();
    FreshFirstCourse(store);
    status := DeleteCourseRoute(store, Some(1));
    listed := store.GetCourses();
    BuyerBodyParses(1, validEmail);
    r := Purchase(store, BuyerBody(1), validEmail);
  }
}
