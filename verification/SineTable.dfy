/** The table of RFC 1321 is what section 3.4 says it is: entry i is the integer part of 2^32
    times the absolute value of the sine of i radians, i from 1 to 64. */
module SineTable {
  import opened Rfc1321

  const COS1: real := 0.5403023058681397174009366074429766037323
  const SIN1: real := 0.8414709848078965066525023216302989996226

  /** f is the sine of the natural numbers, by its first two values and the addition theorem,
      sin(n + 2) = 2 cos(1) sin(n + 1) - sin(n); cos(1) and sin(1) are known to 36 places. */
  ghost predicate IsSine(f: nat -> real, c: real) {
    && Near(c, COS1, 0.0000000000000000000000000000000000001)
    && f(0) == 0.0 && Near(f(1), SIN1, 0.0000000000000000000000000000000000001)
    && forall n: nat :: Recurs(f, c, n)
  }

  predicate Recurs(f: nat -> real, c: real, n: nat) { f(n + 2) == 2.0 * c * f(n + 1) - f(n) }

  /** The two values are those of the power series of the sine and the cosine at 1, of which
      eighteen terms leave less than 1/36!. */
  lemma FirstTerms()
    ensures Near(SIN1, SineTerms(), 0.0000000000000000000000000000000000001)
    ensures Near(COS1, CosineTerms(), 0.0000000000000000000000000000000000001)
  {}

  function SineTerms(): real {
    1.0 - 1.0 / 6.0 + 1.0 / 120.0 - 1.0 / 5040.0 + 1.0 / 362880.0 - 1.0 / 39916800.0 + 1.0 / 6227020800.0
      - 1.0 / 1307674368000.0 + 1.0 / 355687428096000.0 - 1.0 / 121645100408832000.0
      + 1.0 / 51090942171709440000.0 - 1.0 / 25852016738884976640000.0 + 1.0 / 15511210043330985984000000.0
      - 1.0 / 10888869450418352160768000000.0 + 1.0 / 8841761993739701954543616000000.0
      - 1.0 / 8222838654177922817725562880000000.0 + 1.0 / 8683317618811886495518194401280000000.0
      - 1.0 / 10333147966386144929666651337523200000000.0
  }

  function CosineTerms(): real {
    1.0 - 1.0 / 2.0 + 1.0 / 24.0 - 1.0 / 720.0 + 1.0 / 40320.0 - 1.0 / 3628800.0 + 1.0 / 479001600.0
      - 1.0 / 87178291200.0 + 1.0 / 20922789888000.0 - 1.0 / 6402373705728000.0
      + 1.0 / 2432902008176640000.0 - 1.0 / 1124000727777607680000.0 + 1.0 / 620448401733239439360000.0
      - 1.0 / 403291461126605635584000000.0 + 1.0 / 304888344611713860501504000000.0
      - 1.0 / 265252859812191058636308480000000.0 + 1.0 / 263130836933693530167218012160000000.0
      - 1.0 / 295232799039604140847618609643520000000.0
  }

  predicate Near(x: real, y: real, e: real) { -e <= x - y <= e }

  /** The sines of 0 to 15, to 40 places. */
  function Sines1(j: nat): real {
    match j
    case 0 => 0.0000000000000000000000000000000000000000
    case 1 => 0.8414709848078965066525023216302989996226
    case 2 => 0.9092974268256816953960198659117448427023
    case 3 => 0.1411200080598672221007448028081102798469
    case 4 => -0.7568024953079282513726390945118290941359
    case 5 => -0.9589242746631384688931544061559939733525
    case 6 => -0.2794154981989258728115554466118947596280
    case 7 => 0.6569865987187890903969990915936351779369
    case 8 => 0.9893582466233817778081235982452886721164
    case 9 => 0.4121184852417565697562725663524351793439
    case 10 => -0.5440211108893698134047476618513772816836
    case 11 => -0.9999902065507034570515648990255221068430
    case 12 => -0.5365729180004349716653742282424017923157
    case 13 => 0.4201670368266409218689550354768827883150
    case 14 => 0.9906073556948703078753548040145856037582
    case _ => 0.6502878401571168658297402709888703252146
  }

  /** The sines of 16 to 31, to 40 places. */
  function Sines2(j: nat): real {
    match j
    case 0 => -0.2879033166650652947844562482186175296207
    case 1 => -0.9613974918795568572616369448691560984921
    case 2 => -0.7509872467716761037501560844471145313776
    case 3 => 0.1498772096629523297542393212382539494484
    case 4 => 0.9129452507276276543760999838456823012979
    case 5 => 0.8366556385360560318664807702450237759401
    case 6 => -0.0088513092904038759216902568157723324633
    case 7 => -0.8462204041751706352413262719055959277373
    case 8 => -0.9055783620066238451357933585277933222208
    case 9 => -0.1323517500977730289020050938836063014857
    case 10 => 0.7625584504796027375158232932045629730961
    case 11 => 0.9563759284045030134323405583291929504746
    case 12 => 0.2709057883078690199863430927787925334429
    case 13 => -0.6636338842129675021511733400611051511233
    case 14 => -0.9880316240928617899877489072944581504868
    case _ => -0.4040376453230650060487708996642371978730
  }

  /** The sines of 32 to 47, to 40 places. */
  function Sines3(j: nat): real {
    match j
    case 0 => 0.5514266812416905506615581668457128157254
    case 1 => 0.9999118601072671457280843767078283143509
    case 2 => 0.5290826861200238208324871340321047538908
    case 3 => -0.4281826694961510044067528917459406656545
    case 4 => -0.9917788534431157368352889688408157785959
    case 5 => -0.6435381333569994606856700190807955412760
    case 6 => 0.2963685787093853173922966498490173212756
    case 7 => 0.9637953862840877532606649717658821150972
    case 8 => 0.7451131604793487869877094026363443422395
    case 9 => -0.1586226688047089871033170119296870318603
    case 10 => -0.9165215479156337858989891580696715017481
    case 11 => -0.8317747426285982882095782562917522404918
    case 12 => 0.0177019251054135778079540531666166986805
    case 13 => 0.8509035245341184248623796776180411190807
    case 14 => 0.9017883476488091850332930392227385691203
    case _ => 0.1235731227452240040615293480864105483624
  }

  /** The sines of 48 to 64, to 40 places. */
  function Sines4(j: nat): real {
    match j
    case 0 => -0.7682546613236667990449656648458934947981
    case 1 => -0.9537526527594718183604235585877105952829
    case 2 => -0.2623748537039287859143936469126225458867
    case 3 => 0.6702291758433747344943450749506668081079
    case 4 => 0.9866275920404852965875689344367401112682
    case 5 => 0.3959251501818341815033861392635392730561
    case 6 => -0.5587890488516162458178713189653937966672
    case 7 => -0.9997551733586198365986316832438921992329
    case 8 => -0.5215510020869118801874100215106005378180
    case 9 => 0.4361647552478249590805347931292434882679
    case 10 => 0.9928726480845371181650881644253998184267
    case 11 => 0.6367380071391378807712334923768293831255
    case 12 => -0.3048106211022167056256494654784258408292
    case 13 => -0.9661177700083929470182879894805181517713
    case 14 => -0.7391806966492228672760169337554366337157
    case 15 => 0.1673557003028069215278383702887180290227
    case _ => 0.9200260381967906833515366037772518665339
  }

  function Sines(i: nat): real {
    if i < 16 then Sines1(i) else if i < 32 then Sines2(i - 16) else if i < 48 then Sines3(i - 32) else Sines4(i - 48)
  }

  /** How far the error has grown. */
  function Error(i: nat): (e: real)
    ensures e > 0.0
  {
    if i == 0 then 0.000000000000000000000000000000000001 else 2.0 * Error(i - 1)
  }

  /** a is the table of sines, with everything else about it left open. */
  ghost predicate IsTable(a: nat -> real) { forall i: nat {:trigger a(i)} :: i < 65 ==> a(i) == Sines(i) }

  lemma SinesAre()
    ensures IsTable(Sines)
  {}

  predicate Follows(a: nat -> real, i: nat) {
    Near(a(i + 2), 2.0 * COS1 * a(i + 1) - a(i), 0.0000000000000000000000000000000000001)
    && Near(a(i + 1), 0.0, 1.0)
  }

  lemma Follows1(a: nat -> real)
    requires IsTable(a)
    ensures Follows(a, 0) && Follows(a, 1) && Follows(a, 2) && Follows(a, 3)
    ensures Follows(a, 4) && Follows(a, 5) && Follows(a, 6) && Follows(a, 7)
    ensures Follows(a, 8) && Follows(a, 9) && Follows(a, 10) && Follows(a, 11)
    ensures Follows(a, 12) && Follows(a, 13) && Follows(a, 14) && Follows(a, 15)
  {}

  lemma Follows2(a: nat -> real)
    requires IsTable(a)
    ensures Follows(a, 16) && Follows(a, 17) && Follows(a, 18) && Follows(a, 19)
    ensures Follows(a, 20) && Follows(a, 21) && Follows(a, 22) && Follows(a, 23)
    ensures Follows(a, 24) && Follows(a, 25) && Follows(a, 26) && Follows(a, 27)
    ensures Follows(a, 28) && Follows(a, 29) && Follows(a, 30) && Follows(a, 31)
  {}

  lemma Follows3(a: nat -> real)
    requires IsTable(a)
    ensures Follows(a, 32) && Follows(a, 33) && Follows(a, 34) && Follows(a, 35)
    ensures Follows(a, 36) && Follows(a, 37) && Follows(a, 38) && Follows(a, 39)
    ensures Follows(a, 40) && Follows(a, 41) && Follows(a, 42) && Follows(a, 43)
    ensures Follows(a, 44) && Follows(a, 45) && Follows(a, 46) && Follows(a, 47)
  {}

  lemma Follows4(a: nat -> real)
    requires IsTable(a)
    ensures Follows(a, 48) && Follows(a, 49) && Follows(a, 50) && Follows(a, 51)
    ensures Follows(a, 52) && Follows(a, 53) && Follows(a, 54) && Follows(a, 55)
    ensures Follows(a, 56) && Follows(a, 57) && Follows(a, 58) && Follows(a, 59)
    ensures Follows(a, 60) && Follows(a, 61) && Follows(a, 62)
  {}

  /** p holds of everything below n. */
  predicate AllBelow(p: nat -> bool, n: nat) { n == 0 || (p(n - 1) && AllBelow(p, n - 1)) }

  lemma {:induction false} Pick(p: nat -> bool, n: nat, i: nat)
    requires AllBelow(p, n) && i < n
    ensures p(i)
    decreases n
  {
    if i < n - 1 { Pick(p, n - 1, i); }
  }

  lemma FourMore(p: nat -> bool, n: nat)
    requires AllBelow(p, n) && p(n) && p(n + 1) && p(n + 2) && p(n + 3)
    ensures AllBelow(p, n + 4)
  {
    assert AllBelow(p, n + 1) && AllBelow(p, n + 2) && AllBelow(p, n + 3);
  }

  /** p says of each entry that it follows, with everything else about it left open. */
  ghost predicate IsFollowing(p: nat -> bool, a: nat -> real) {
    forall i: nat {:trigger p(i)} :: p(i) == Follows(a, i)
  }

  lemma Below16(p: nat -> bool)
    requires AllBelow(p, 0)
    requires p(0) && p(1) && p(2) && p(3) && p(4) && p(5) && p(6) && p(7)
    requires p(8) && p(9) && p(10) && p(11) && p(12) && p(13) && p(14) && p(15)
    ensures AllBelow(p, 16)
  {
    FourMore(p, 0);
    FourMore(p, 4);
    FourMore(p, 8);
    FourMore(p, 12);
  }

  lemma Holds1(p: nat -> bool, a: nat -> real)
    requires IsFollowing(p, a)
    requires Follows(a, 0) && Follows(a, 1) && Follows(a, 2) && Follows(a, 3)
    requires Follows(a, 4) && Follows(a, 5) && Follows(a, 6) && Follows(a, 7)
    requires Follows(a, 8) && Follows(a, 9) && Follows(a, 10) && Follows(a, 11)
    requires Follows(a, 12) && Follows(a, 13) && Follows(a, 14) && Follows(a, 15)
    ensures p(0) && p(1) && p(2) && p(3) && p(4) && p(5) && p(6) && p(7)
    ensures p(8) && p(9) && p(10) && p(11) && p(12) && p(13) && p(14) && p(15)
  {}

  lemma Table16(p: nat -> bool, a: nat -> real)
    requires IsTable(a) && IsFollowing(p, a) && AllBelow(p, 0)
    ensures AllBelow(p, 16)
  {
    Follows1(a);
    Holds1(p, a);
    Below16(p);
  }

  lemma Below32(p: nat -> bool)
    requires AllBelow(p, 16)
    requires p(16) && p(17) && p(18) && p(19) && p(20) && p(21) && p(22) && p(23)
    requires p(24) && p(25) && p(26) && p(27) && p(28) && p(29) && p(30) && p(31)
    ensures AllBelow(p, 32)
  {
    FourMore(p, 16);
    FourMore(p, 20);
    FourMore(p, 24);
    FourMore(p, 28);
  }

  lemma Holds2(p: nat -> bool, a: nat -> real)
    requires IsFollowing(p, a)
    requires Follows(a, 16) && Follows(a, 17) && Follows(a, 18) && Follows(a, 19)
    requires Follows(a, 20) && Follows(a, 21) && Follows(a, 22) && Follows(a, 23)
    requires Follows(a, 24) && Follows(a, 25) && Follows(a, 26) && Follows(a, 27)
    requires Follows(a, 28) && Follows(a, 29) && Follows(a, 30) && Follows(a, 31)
    ensures p(16) && p(17) && p(18) && p(19) && p(20) && p(21) && p(22) && p(23)
    ensures p(24) && p(25) && p(26) && p(27) && p(28) && p(29) && p(30) && p(31)
  {}

  lemma Table32(p: nat -> bool, a: nat -> real)
    requires IsTable(a) && IsFollowing(p, a) && AllBelow(p, 16)
    ensures AllBelow(p, 32)
  {
    Follows2(a);
    Holds2(p, a);
    Below32(p);
  }

  lemma Below48(p: nat -> bool)
    requires AllBelow(p, 32)
    requires p(32) && p(33) && p(34) && p(35) && p(36) && p(37) && p(38) && p(39)
    requires p(40) && p(41) && p(42) && p(43) && p(44) && p(45) && p(46) && p(47)
    ensures AllBelow(p, 48)
  {
    FourMore(p, 32);
    FourMore(p, 36);
    FourMore(p, 40);
    FourMore(p, 44);
  }

  lemma Holds3(p: nat -> bool, a: nat -> real)
    requires IsFollowing(p, a)
    requires Follows(a, 32) && Follows(a, 33) && Follows(a, 34) && Follows(a, 35)
    requires Follows(a, 36) && Follows(a, 37) && Follows(a, 38) && Follows(a, 39)
    requires Follows(a, 40) && Follows(a, 41) && Follows(a, 42) && Follows(a, 43)
    requires Follows(a, 44) && Follows(a, 45) && Follows(a, 46) && Follows(a, 47)
    ensures p(32) && p(33) && p(34) && p(35) && p(36) && p(37) && p(38) && p(39)
    ensures p(40) && p(41) && p(42) && p(43) && p(44) && p(45) && p(46) && p(47)
  {}

  lemma Table48(p: nat -> bool, a: nat -> real)
    requires IsTable(a) && IsFollowing(p, a) && AllBelow(p, 32)
    ensures AllBelow(p, 48)
  {
    Follows3(a);
    Holds3(p, a);
    Below48(p);
  }

  lemma Below63(p: nat -> bool)
    requires AllBelow(p, 48)
    requires p(48) && p(49) && p(50) && p(51) && p(52) && p(53) && p(54) && p(55)
    requires p(56) && p(57) && p(58) && p(59) && p(60) && p(61) && p(62)
    ensures AllBelow(p, 63)
  {
    FourMore(p, 48);
    FourMore(p, 52);
    FourMore(p, 56);
    assert AllBelow(p, 61) && AllBelow(p, 62);
  }

  lemma Holds4(p: nat -> bool, a: nat -> real)
    requires IsFollowing(p, a)
    requires Follows(a, 48) && Follows(a, 49) && Follows(a, 50) && Follows(a, 51)
    requires Follows(a, 52) && Follows(a, 53) && Follows(a, 54) && Follows(a, 55)
    requires Follows(a, 56) && Follows(a, 57) && Follows(a, 58) && Follows(a, 59)
    requires Follows(a, 60) && Follows(a, 61) && Follows(a, 62)
    ensures p(48) && p(49) && p(50) && p(51) && p(52) && p(53) && p(54) && p(55)
    ensures p(56) && p(57) && p(58) && p(59) && p(60) && p(61) && p(62)
  {}

  lemma Table63(p: nat -> bool, a: nat -> real)
    requires IsTable(a) && IsFollowing(p, a) && AllBelow(p, 48)
    ensures AllBelow(p, 63)
  {
    Follows4(a);
    Holds4(p, a);
    Below63(p);
  }

  lemma AllFollow(a: nat -> real, i: nat)
    requires IsTable(a) && i < 63
    ensures Follows(a, i)
  {
    var p := (k: nat) => Follows(a, k);
    Table16(p, a);
    Table32(p, a);
    Table48(p, a);
    Table63(p, a);
    Pick(p, 63, i);
  }

  /** One step of the recurrence on approximate values. */
  lemma StepNear(c: real, f0: real, f1: real, a0: real, a1: real, a2: real, e: real)
    requires Near(c, COS1, 0.0000000000000000000000000000000000001)
    requires Near(f0, a0, e) && Near(f1, a1, 2.0 * e) && Near(a1, 0.0, 1.0)
    requires 0.000000000000000000000000000000000001 <= e <= 0.1
    requires Near(a2, 2.0 * COS1 * a1 - a0, 0.0000000000000000000000000000000000001)
    ensures Near(2.0 * c * f1 - f0, a2, 4.0 * e)
  {
    var d, r := c - COS1, f1 - a1;
    assert 2.0 * c * f1 - f0 == 2.0 * COS1 * a1 - a0 + 2.0 * COS1 * r + 2.0 * d * f1 - (f0 - a0);
    Product(d, f1, 0.0000000000000000000000000000000000001, 2.0);
  }

  lemma Product(x: real, y: real, a: real, b: real)
    requires -a <= x <= a && -b <= y <= b
    ensures -(a * b) <= x * y <= a * b
  {
    assert (a - x) * (b - y) >= 0.0 && (a + x) * (b + y) >= 0.0;
    assert (a - x) * (b + y) >= 0.0 && (a + x) * (b - y) >= 0.0;
  }

  lemma {:induction false} ErrorIs(i: nat)
    requires i <= 64
    ensures 0.000000000000000000000000000000000001 <= Error(i) <= Error(64)
    decreases 64 - i
  {
    if i < 64 { ErrorIs(i + 1); }
    ErrorLeast(i);
  }

  lemma {:induction false} ErrorLeast(i: nat)
    ensures 0.000000000000000000000000000000000001 <= Error(i)
  {
    if i > 0 { ErrorLeast(i - 1); }
  }

  lemma ErrorFour(i: nat)
    ensures Error(i + 4) == 16.0 * Error(i)
  {
    assert Error(i + 4) == 2.0 * Error(i + 3) == 4.0 * Error(i + 2) == 8.0 * Error(i + 1);
  }

  lemma ErrorSixteen(i: nat)
    ensures Error(i + 16) == 65536.0 * Error(i)
  {
    ErrorFour(i);
    ErrorFour(i + 4);
    ErrorFour(i + 8);
    ErrorFour(i + 12);
  }

  lemma ErrorSmall()
    ensures Error(64) <= 0.0000000000000001
  {
    ErrorSixteen(0);
    ErrorSixteen(16);
    ErrorSixteen(32);
    ErrorSixteen(48);
  }

  lemma {:induction false} SinesNear(f: nat -> real, c: real, a: nat -> real, i: nat)
    requires IsSine(f, c) && IsTable(a) && i < 64
    ensures Near(f(i), a(i), Error(i)) && Near(f(i + 1), a(i + 1), Error(i + 1))
  {
    if i == 0 {
      FirstSines(f, c, a);
    } else {
      SinesNear(f, c, a, i - 1);
      AllFollow(a, i - 1);
      ErrorIs(i - 1);
      ErrorSmall();
      NextSine(f, c, i - 1, a(i - 1), a(i), a(i + 1), Error(i - 1));
    }
  }

  lemma FirstSines(f: nat -> real, c: real, a: nat -> real)
    requires IsSine(f, c) && IsTable(a)
    ensures Near(f(0), a(0), Error(0)) && Near(f(1), a(1), Error(1))
  {
    assert Error(1) == 2.0 * Error(0);
    assert a(0) == Sines(0) && a(1) == Sines(1);
  }

  lemma NextSine(f: nat -> real, c: real, i: nat, a0: real, a1: real, a2: real, e: real)
    requires IsSine(f, c) && Near(f(i), a0, e) && Near(f(i + 1), a1, 2.0 * e) && Near(a1, 0.0, 1.0)
    requires 0.000000000000000000000000000000000001 <= e <= 0.1
    requires Near(a2, 2.0 * COS1 * a1 - a0, 0.0000000000000000000000000000000000001)
    ensures Near(f(i + 2), a2, 4.0 * e)
  {
    assert Recurs(f, c, i);
    StepNear(c, f(i), f(i + 1), a0, a1, a2, e);
  }

  function Abs(x: real): real { if x < 0.0 then -x else x }

  /** Entry i of the table, from the approximate sine, with room for the error. */
  predicate Entry(i: nat) {
    (T(i) as real) + 0.00001 <= 4294967296.0 * Abs(Sines(i + 1)) <= (T(i) as real) + 0.99999
  }

  lemma Entries1()
    ensures Entry(0) && Entry(1) && Entry(2) && Entry(3)
    ensures Entry(4) && Entry(5) && Entry(6) && Entry(7)
    ensures Entry(8) && Entry(9) && Entry(10) && Entry(11)
    ensures Entry(12) && Entry(13) && Entry(14) && Entry(15)
  {}

  lemma Entries2()
    ensures Entry(16) && Entry(17) && Entry(18) && Entry(19)
    ensures Entry(20) && Entry(21) && Entry(22) && Entry(23)
    ensures Entry(24) && Entry(25) && Entry(26) && Entry(27)
    ensures Entry(28) && Entry(29) && Entry(30) && Entry(31)
  {}

  lemma Entries3()
    ensures Entry(32) && Entry(33) && Entry(34) && Entry(35)
    ensures Entry(36) && Entry(37) && Entry(38) && Entry(39)
    ensures Entry(40) && Entry(41) && Entry(42) && Entry(43)
    ensures Entry(44) && Entry(45) && Entry(46) && Entry(47)
  {}

  lemma Entries4()
    ensures Entry(48) && Entry(49) && Entry(50) && Entry(51)
    ensures Entry(52) && Entry(53) && Entry(54) && Entry(55)
    ensures Entry(56) && Entry(57) && Entry(58) && Entry(59)
    ensures Entry(60) && Entry(61) && Entry(62) && Entry(63)
  {}

  lemma AllEntries(i: nat)
    requires i < 64
    ensures Entry(i)
  {
    Entries1();
    Entries2();
    Entries3();
    Entries4();
  }

  /** The table is that of the sine. */
  lemma TIsSine(f: nat -> real, c: real, i: nat)
    requires IsSine(f, c) && i < 64
    ensures (T(i) as real) <= 4294967296.0 * Abs(f(i + 1)) < (T(i) as real) + 1.0
  {
    SinesAre();
    SinesNear(f, c, Sines, i);
    ErrorIs(i + 1);
    ErrorSmall();
    AllEntries(i);
  }
}
