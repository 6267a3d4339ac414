# Course store and purchase workflow

A Dafny model of the server core of a course-selling site:

- the in-memory record store `MemStorage`, which keeps courses, students and orders in three insertion-ordered maps, each with its own id counter;
- the purchase endpoint, which runs these steps:
  1. validates the buyer's form;
  2. looks the course up;
  3. reuses the student registered under the email, or registers one;
  4. records a pending order at the course's current price;
  5. builds the enrolment notification;
- the course and order-status endpoints that turn a store miss into 404.

Modules:

- `Wrappers`: `Option` and `Result`.
- `Tables`: `Table<T>`, the model of a JavaScript `Map<number, T>`. It is a key list in insertion order plus a key-to-record map. Setting an existing key keeps its position; setting a new key appends it. The module also holds `Filter` and `Find`, the models of `Array.prototype.filter` and `find`.
- `Schema`: the course, student and order records and their insert inputs. It also holds how `createCourse`, `createStudent` and `createOrder` build a record from an input, and how a partial course update is applied.
- `Storage`: the seed courses and the `MemStorage` class. The class's fields are the three tables and the three counters. Its invariant `Valid` says:
  - every record is stored under its own id;
  - ids ascend in insertion order;
  - every id lies below its table's counter.
- `Decimal`: the decimal rendering of integers used in the message, with its parser.
- `Notification`: the eleven-line enrolment message, with a reader that recovers every reported field from it.
- `Routes`: the purchase schema, the purchase handler, and the course and order-status handlers.
- `Scenarios`: client walks that combine the operations. They cover:
  - a purchase against a fresh store;
  - two purchases under one email;
  - a price change after an order;
  - a purchase of a deleted course.

Inputs from outside the core become parameters:

- the email check of the validation library is the `validEmail` argument;
- a path id is `Option<int>`: the result of `parseInt`, `None` for NaN;
- a request body that fails a course schema is `None`.

Two behaviours of the code are easy to miss:

- The purchase handler finds a course with `getCourse`, which ignores `isActive`. So a deleted course can still be bought (server/routes.ts:92, server/storage.ts:118-120).
- `createCourse` attaches an `imageUrl` to every stored course, although the table definition has no such column. The seed courses carry one. A course created through `POST /api/courses` never does, because the insert schema drops the field.

## Model

| member | source | states |
|---|---|---|
| Tables.Table.Values | server/storage.ts:115 | `Array.from(map.values())`: one value per key, in insertion order, each the value stored under its key |
| Tables.Table.Get | server/storage.ts:119 | `map.get`: a value exactly when the key is stored, and then the stored value |
| Tables.Table.Set | server/storage.ts:131 | `map.set`: the key maps to the new value and no other key changes; an existing key keeps its place in iteration order; a new key's value is appended to the values |
| Tables.Empty | server/storage.ts:26-28 | a new map is well formed and has no values |
| Tables.SetAtCounter | server/storage.ts:123 | storing under the counter keeps the table ordered below the incremented counter: the id is fresh and larger than every stored id |
| Tables.SetPresent | server/storage.ts:140 | overwriting a stored key keeps the table ordered |
| Tables.ValuesAreRows | server/storage.ts:115 | the values list holds exactly the stored records |
| Tables.Filter | server/storage.ts:115 | `filter`: an element is kept exactly when it is in the input and passes the test; the result is never longer |
| Tables.Find | server/storage.ts:163 | `find`: the index of the first element that passes; `None` exactly when none does |
| Tables.FilterIsSubsequence | server/storage.ts:115 | `filter` keeps the input's order |
| Tables.FilterAppend | server/storage.ts:115 | filtering a list with one more element at the end adds that element exactly when it passes |
| Tables.FilterAll | server/storage.ts:115 | when every element passes, `filter` returns the list unchanged |
| Tables.FindNoneIffFilterEmpty | server/storage.ts:163 | `find` finds nothing exactly when `filter` keeps nothing |
| Schema.NewCourse | server/storage.ts:122-130 | the stored course has the counter's id; `isActive` is true unless the input says false; `imageUrl` is the input's, null when omitted; every other field is copied |
| Schema.NewStudent | server/storage.ts:166-172 | the stored student has the given id and exactly the input's name, email and mobile |
| Schema.NewOrder | server/storage.ts:186-193 | the stored order has the given id and the input's fields; its status is the supplied one, or "pending" when the input gives none |
| Schema.ApplyPatch | server/storage.ts:139 | `{ ...course, ...updateData }`: every supplied field overwrites the stored one, every omitted field keeps its value, and the id and image never change |
| Schema.PatchIdempotent | server/storage.ts:139 | applying the same update twice gives the same course as applying it once |
| Schema.EmptyPatchIsIdentity | server/storage.ts:139 | an update that supplies no field leaves the course as it was |
| Storage.DefaultCourses | server/storage.ts:39-106 | the seed list has six courses, all marked active |
| Storage.Numbered | server/storage.ts:108-110 | the courses created from a list of inputs get consecutive ids starting at the counter |
| Storage.KeysBefore | server/storage.ts:163 | in an ordered table every smaller id comes earlier in iteration order |
| Storage.MemStorage.constructor | server/storage.ts:29-36 | a new store holds the six seed courses under ids 1 to 6, lists all of them, has no students and no orders, and its counters are 7, 1 and 1 |
| Storage.MemStorage.SeedCourses | server/storage.ts:38-111 | `forEach(createCourse)`: the courses list grows by the seed inputs numbered from the counter, and the counter grows by their number |
| Storage.MemStorage.GetCourses | server/storage.ts:114-116 | the result holds only stored active courses, holds every stored active course, and keeps insertion order |
| Storage.MemStorage.GetCourse | server/storage.ts:118-120 | found exactly when the id is stored, active or not, and then the stored course with that id |
| Storage.MemStorage.CreateCourse | server/storage.ts:122-133 | the id is the old counter, fresh and above every stored id; the counter goes up by one; only the new course is added |
| Storage.MemStorage.UpdateCourse | server/storage.ts:135-142 | an unknown id gives `None` and changes nothing; a known id gets the patched course, no other course changes, and the iteration order is kept |
| Storage.MemStorage.DeleteCourse | server/storage.ts:144-151 | true exactly for a stored id; then only `isActive` becomes false, `getCourse` still returns the course, and `getCourses` no longer does; on false nothing changes |
| Storage.MemStorage.GetStudents | server/storage.ts:154-156 | exactly the stored students, ids ascending |
| Storage.MemStorage.GetStudent | server/storage.ts:158-160 | found exactly when the id is stored, and then the stored student with that id |
| Storage.MemStorage.GetStudentByEmail | server/storage.ts:162-164 | a stored student with exactly that email, and no earlier-created student has it; `None` exactly when no stored student has it |
| Storage.MemStorage.StudentsWithEmail | server/storage.ts:162-164 | every stored student with that email and no other record, in insertion order; empty exactly when the lookup by email finds none |
| Storage.MemStorage.CreateStudent | server/storage.ts:166-175 | the id is the old student counter, fresh and above every stored id; the counter goes up by one; the email is not checked for uniqueness |
| Storage.MemStorage.GetOrders | server/storage.ts:178-180 | exactly the stored orders, ids ascending |
| Storage.MemStorage.GetOrder | server/storage.ts:182-184 | found exactly when the id is stored, and then the stored order with that id |
| Storage.MemStorage.CreateOrder | server/storage.ts:186-196 | the id is the old order counter, fresh and above every stored id; the counter goes up by one; only the new order is added |
| Storage.MemStorage.UpdateOrderStatus | server/storage.ts:198-205 | an unknown id gives `None` and changes nothing; a known id changes only that order's status and keeps the iteration order |
| Storage.MemStorage.GetOrdersByStudent | server/storage.ts:207-209 | exactly the stored orders of that student, in insertion order |
| Decimal.DigitChar | server/routes.ts:123 | a digit value renders as a decimal digit character |
| Decimal.DigitValue | server/routes.ts:123 | a digit character reads as a value from 0 to 9 that renders back as the same character |
| Decimal.NatToString | server/routes.ts:123 | a natural number renders as a non-empty digit string without leading zeros |
| Decimal.IntToString | server/routes.ts:123-125 | `${n}` for a whole number is non-empty and stays on one line |
| Decimal.DigitsOfNat | server/routes.ts:123 | the digits of a natural number read back as that number |
| Decimal.IntRoundTrip | server/routes.ts:123-125 | the rendering of every whole number parses back to it |
| Notification.Lines | server/routes.ts:117-127 | the template has eleven lines, from the header to the footer; when no detail contains a line feed, no line does |
| Notification.Join | server/routes.ts:117-127 | lines joined by line feeds: the text starts with the first line and ends with the last |
| Notification.Message | server/routes.ts:117-127 | when no detail contains a line feed, splitting the message at line feeds gives back exactly the template's lines |
| Notification.Split | server/routes.ts:117-127 | splitting a text at its line feeds gives at least one line |
| Notification.SplitPrefix | server/routes.ts:117-127 | text without a line feed in front of a string extends that string's first line |
| Notification.SplitJoin | server/routes.ts:117-127 | joining lines without line feeds and splitting them again gives the lines back |
| Notification.AfterLabel | server/routes.ts:119-125 | a labelled line gives back the value after its label |
| Notification.FixedLinesAreSingle | server/routes.ts:117-127 | the header, the footer and every label are one line each |
| Notification.ReadMessageInverts | server/routes.ts:117-127 | when no name, email, mobile, title or transaction reference contains a line feed, the message embeds the name, email, mobile, course title, price, transaction reference and order id so that each can be read back exactly |
| Routes.Utf16Length | server/routes.ts:8-12 | the length `.min` compares lies between the character count and twice it |
| Routes.FailingAmong | server/routes.ts:7-13 | the fields of a list that break their rule, exactly those, in the list's order |
| Routes.FieldErrors | server/routes.ts:7-13 | the list of schema errors names exactly the fields that break their rule, in the order the schema declares them, so each at most once |
| Routes.ParsePurchase | server/routes.ts:7-13 | accepted exactly when the name is non-empty, the email passes the check, the mobile has at least 10 code units, the course id is a number and the transaction reference has at least 12; then the values are carried over; otherwise the errors name exactly the failing fields |
| Routes.CourseFor | server/routes.ts:92 | a course is found exactly when the number is whole and the id is stored, active or not |
| Routes.PurchaseStatus | server/routes.ts:87-148 | 400 for invalid input, 404 for an unknown course, 201 for a created order |
| Routes.BuyerId | server/routes.ts:98-105 | the order's student is the one `getStudentByEmail` returns, the earliest registered under the email, or else the id the next student will get |
| Routes.PlaceOrder | server/routes.ts:97-127 | a found student is reused unchanged; otherwise exactly one student is registered from the form; one pending order is added with the course's current price; the message reports the order |
| Routes.Purchase | server/routes.ts:87-148 | 400 with the failing fields, or 404 for an unknown course, and then nothing changes; otherwise the new order's id, the order as placed, the order counter one past it, the student reused (counter unchanged) or the one registered (counter up by one), the students under the email (the old ones, or just the new one), and the message |
| Routes.GetCourseRoute | server/routes.ts:27-38 | 404 exactly when the id is not a number or not stored; a stored id gets 200 with the stored course |
| Routes.CreateCourseRoute | server/routes.ts:41-52 | 400 and no change for a rejected body; otherwise 201 with the created course, which has no image |
| Routes.UpdateCourseRoute | server/routes.ts:55-70 | 400 for a rejected body whatever the id; 404 for an unknown id; 200 exactly when both are good, with the patched course stored; no change unless 200 |
| Routes.DeleteCourseRoute | server/routes.ts:73-84 | 404 and no change exactly when the id is not a stored course; otherwise 200 and the course is marked inactive |
| Routes.UpdateOrderStatusRoute | server/routes.ts:161-173 | 404 and no change exactly when the id is not a stored order; otherwise 200 with the status stored as sent, unchecked |
| Scenarios.FreshFirstCourse | server/storage.ts:40-50 | in a fresh store, course 1 is "Ethical Hacking Fundamentals" at 999 |
| Scenarios.BuyerBodyParses | server/routes.ts:7-13 | a complete form with a valid email passes the schema |
| Scenarios.FirstPurchase | server/routes.ts:87-141 | the first purchase of course 1 from a fresh store creates order 1, and its message reads back as the buyer's details, the seed title and 999 |
| Scenarios.SameEmailTwice | server/routes.ts:98-105 | two purchases in a row under one email leave at most one student with that email |
| Scenarios.BuyFirstCourse | server/routes.ts:108-114 | a purchase of course 1 stores an order for course 1 at its price |
| Scenarios.Reprice | server/routes.ts:55-63 | a price update of a stored course sets its price |
| Scenarios.PriceChangeAfterOrder | server/routes.ts:108-114 | an order keeps its amount when the course's price changes later |
| Scenarios.PurchaseWithdrawnCourse | server/routes.ts:92 | a deleted course leaves the listing but can still be bought |

## Left out

- `createdAt` timestamps: they come from the clock and no operation reads them.
- Promises: every store operation is synchronous here.
- The catch-all 500 responses. The store operations never throw. But `encodeURIComponent` in the purchase handler throws on a lone UTF-16 surrogate, and `.min` accepts one in the name, mobile or transaction reference; a course title can hold one too. The handler then answers 500 after it has already stored the student and the order.
- Routes.Purchase: "nothing changes unless the purchase succeeds" covers only text without lone surrogates. Dafny strings hold only Unicode scalar values, so the model cannot express the input that makes the handler answer 500 after storing the student and the order.
- Concurrent requests: two purchases interleaving between the email lookup and the student creation could register the same email twice. The model runs requests one after another.
- The validation library's email regular expression: it is the `validEmail` parameter.
- The details of the course insert schema: the body has either been accepted and is given as a `CourseInput` or `CoursePatch`, or has been rejected and is `None`.
- `parseInt` of the path id: it is given as an `Option<int>`.
- The `console.log` calls that stand in for sending the message.
- The `wa.me` link and its `encodeURIComponent` encoding: the model returns the message the link carries.
- The confirmation text of the 201 and 200 answers.
- The list endpoints for courses, orders and students: each returns a store query unchanged, and the query itself is modelled.
- Order status bodies that are not strings: the body's `status` is taken as a string.
- JavaScript's exponent notation for numbers of 10^21 and above: `IntToString` always writes plain decimal digits.
- Storage.MemStorage.CreateCourse: ids and counters are unbounded integers. The source's counters are JavaScript numbers, and `currentCourseId++` stops advancing at 2^53, so a create after that would reuse an id and overwrite the record stored under it. The model's "fresh and above every stored id" holds only below that bound.
- Storage.MemStorage.CreateStudent: the same 2^53 limit on `currentStudentId` is not modelled.
- Storage.MemStorage.CreateOrder: the same 2^53 limit on `currentOrderId` is not modelled.
- The database constraints of the table definitions (unique email, foreign keys): `MemStorage` does not enforce them.
