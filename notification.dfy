/** The enrolment message the purchase handler builds (server/routes.ts,
    the `whatsappMessage` template): eleven lines joined by line feeds. */
module Notification {
  import opened Wrappers
  import opened Decimal

  /** What the message reports: the submitted contact details, the course's
      title and price, the transaction reference and the new order's id. */
  datatype Notice = Notice(
    name: string,
    email: string,
    mobile: string,
    title: string,
    amount: int,
    utr: string,
    orderId: int)

  const Header: string := "\U{1F525} NEW COURSE ENROLLMENT \U{1F525}"
  // written in two pieces only to keep the verifier's reasoning about the literal small
  const Footer: string := "Please verify payment " + "and provide course access."
  const StudentLabel: string := "Student: "
  const EmailLabel: string := "Email: "
  const MobileLabel: string := "Mobile: "
  const CourseLabel: string := "Course: "
  const AmountLabel: string := "Amount: \U{20B9}"
  const UtrLabel: string := "UTR: "
  const OrderIdLabel: string := "Order ID: "

  /** The eleven lines of the template: header, blank, the seven labelled
      details, blank, footer. Only the details can bring a line feed in. */
  function Lines(n: Notice): (ls: seq<string>)
    ensures |ls| == 11 && ls[0] == Header && ls[10] == Footer
    ensures SingleLine(n) ==> forall i :: 0 <= i < |ls| ==> '\n' !in ls[i]
  {
    FixedLinesAreSingle();
    [ Header,
      "",
      StudentLabel + n.name,
      EmailLabel + n.email,
      MobileLabel + n.mobile,
      CourseLabel + n.title,
      AmountLabel + IntToString(n.amount),
      UtrLabel + n.utr,
      OrderIdLabel + IntToString(n.orderId),
      "",
      Footer ]
  }

  /** Lines separated by single line feeds: the text starts with the first
      line and ends with the last. */
  function Join(ls: seq<string>): (s: string)
    requires |ls| > 0
    ensures ls[0] <= s
    ensures |ls[|ls| - 1]| <= |s| && s[|s| - |ls[|ls| - 1]|..] == ls[|ls| - 1]
  {
    if |ls| == 1 then ls[0] else ls[0] + "\n" + Join(ls[1..])
  }

  /** The enrolment message. When no detail holds a line feed, splitting it
      at line feeds gives back exactly the template's eleven lines. */
  function Message(n: Notice): (m: string)
    ensures SingleLine(n) ==> Split(m) == Lines(n)
  {
    if SingleLine(n) then
      SplitJoin(Lines(n));
      Join(Lines(n))
    else
      Join(Lines(n))
  }

  /** `s.split("\n")`: the pieces between line feeds. */
  function Split(s: string): (ls: seq<string>)
    ensures |ls| > 0
  {
    if s == [] then [""]
    else
      var rest := Split(s[1..]);
      if s[0] == '\n' then [""] + rest else [[s[0]] + rest[0]] + rest[1..]
  }

  /** The text after the label `p`, if `s` starts with it. */
  function After(p: string, s: string): Option<string> {
    if |p| <= |s| && s[..|p|] == p then Some(s[|p|..]) else None
  }

  /** Recovers the reported details from a message, if it has the template's shape. */
  function ReadMessage(m: string): Option<Notice> {
    var ls := Split(m);
    if |ls| != 11 || ls[0] != Header || ls[1] != "" || ls[9] != "" || ls[10] != Footer then None
    else
      var name, email, mobile := After(StudentLabel, ls[2]), After(EmailLabel, ls[3]), After(MobileLabel, ls[4]);
      var title, amount, utr := After(CourseLabel, ls[5]), After(AmountLabel, ls[6]), After(UtrLabel, ls[7]);
      var orderId := After(OrderIdLabel, ls[8]);
      if name.None? || email.None? || mobile.None? || title.None? || amount.None? || utr.None? || orderId.None? then None
      else
        var amountValue, orderIdValue := ParseInt(amount.value), ParseInt(orderId.value);
        if amountValue.None? || orderIdValue.None? then None
        else Some(Notice(name.value, email.value, mobile.value, title.value, amountValue.value, utr.value, orderIdValue.value))
  }

  /** The free-text details contain no line break. */
  predicate SingleLine(n: Notice) {
    '\n' !in n.name && '\n' !in n.email && '\n' !in n.mobile && '\n' !in n.title && '\n' !in n.utr
  }

  /** Splitting a text with no line feed in front of `t` extends `t`'s first piece. */
  lemma {:induction false} SplitPrefix(l: string, t: string)
    requires '\n' !in l
    ensures Split(l + t) == [l + Split(t)[0]] + Split(t)[1..]
    decreases |l|
  {
    var st := Split(t);
    if l == [] {
      assert l + t == t && l + st[0] == st[0];
      assert st == [st[0]] + st[1..];
    } else {
      assert (l + t)[0] == l[0] != '\n';
      assert (l + t)[1..] == l[1..] + t;
      SplitPrefix(l[1..], t);
      var rest := Split(l[1..] + t);
      assert rest[0] == l[1..] + st[0] && rest[1..] == st[1..];
      assert [l[0]] + (l[1..] + st[0]) == l + st[0];
    }
  }

  /** Splitting undoes joining, for lines without line feeds. */
  lemma {:induction false} SplitJoin(ls: seq<string>)
    requires |ls| > 0
    requires forall i :: 0 <= i < |ls| ==> '\n' !in ls[i]
    ensures Split(Join(ls)) == ls
  {
    if |ls| == 1 {
      SplitPrefix(ls[0], "");
      assert ls[0] + "" == ls[0];
    } else {
      var rest := Join(ls[1..]);
      SplitJoin(ls[1..]);
      assert ls[0] + "\n" + rest == ls[0] + ("\n" + rest);
      SplitPrefix(ls[0], "\n" + rest);
      assert Split("\n" + rest) == [""] + Split(rest) by {
        assert ("\n" + rest)[1..] == rest;
      }
      assert Split("\n" + rest)[0] == "" && Split("\n" + rest)[1..] == Split(rest);
      assert ls[0] + "" == ls[0];
      assert ls == [ls[0]] + ls[1..];
    }
  }

  lemma AfterLabel(p: string, x: string)
    ensures After(p, p + x) == Some(x)
  {
    assert (p + x)[..|p|] == p;
    assert (p + x)[|p|..] == x;
  }

  lemma FixedLinesAreSingle()
    ensures '\n' !in Header && '\n' !in Footer
    ensures '\n' !in StudentLabel && '\n' !in EmailLabel && '\n' !in MobileLabel && '\n' !in CourseLabel
    ensures '\n' !in AmountLabel && '\n' !in UtrLabel && '\n' !in OrderIdLabel
  {
  }

  /** Every detail the message reports can be read back from it: the message
      embeds the name, email, mobile, course title, price, transaction
      reference and order id, each on its own labelled line. */
  lemma {:induction false} ReadMessageInverts(n: Notice)
    requires SingleLine(n)
    ensures ReadMessage(Message(n)) == Some(n)
  {
    AfterLabel(StudentLabel, n.name);
    AfterLabel(EmailLabel, n.email);
    AfterLabel(MobileLabel, n.mobile);
    AfterLabel(CourseLabel, n.title);
    AfterLabel(AmountLabel, IntToString(n.amount));
    AfterLabel(UtrLabel, n.utr);
    AfterLabel(OrderIdLabel, IntToString(n.orderId));
    IntRoundTrip(n.amount);
    IntRoundTrip(n.orderId);
  }
}
