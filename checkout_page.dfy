/** The checkout page of `CheckoutPage.tsx`: the card-number formatter that
    groups the digits in fours, the effect that writes the formatted number
    back into the input, the plan chosen from the `plan` query parameter, the
    table of the two paid plans and the length rules of the payment form. */
module CheckoutPage {
  import opened Wrappers
  import opened Text
  import Sequences

  // ------------------------------------------------------- card number

  predicate NoWhitespace(t: string)
  {
    forall i :: 0 <= i < |t| ==> !IsWhitespace(t[i])
  }

  /** `t.replace(/(.{4})/g, '$1 ')` on a string without white space, where
      every character matches `.`: a space after each complete group of
      four. */
  function SpaceGroups(t: string): string
    requires NoWhitespace(t)
    decreases |t|
  {
    if |t| < 4 then t else t[..4] + " " + SpaceGroups(t[4..])
  }

  /** The groups of four characters and the shorter last group. */
  function Chunks(t: string): (r: seq<string>)
    decreases |t|
    ensures |r| >= 1
  {
    if |t| <= 4 then [t] else [t[..4]] + Chunks(t[4..])
  }

  /** The formatter of line 46: white space removed, a space after every
      fourth character, then trimmed. The result is the groups of four
      joined with single spaces. */
  function FormatCardNumber(cardNumber: string): (r: string)
    ensures r == Join(Chunks(RemoveWhitespace(cardNumber)), " ")
    ensures IsTrimmed(r)
  {
    var t := RemoveWhitespace(cardNumber);
    SpaceGroupsJoin(t);
    TrimJoin(t);
    Trim(SpaceGroups(t))
  }

  /** The space that the last complete group leaves at the end. */
  function TrailingSpace(t: string): string
  {
    if |t| > 0 && |t| % 4 == 0 then " " else ""
  }

  lemma {:induction false} SpaceGroupsJoin(t: string)
    requires NoWhitespace(t)
    ensures SpaceGroups(t) == Join(Chunks(t), " ") + TrailingSpace(t)
    decreases |t|
  {
    if |t| < 4 {
    } else if |t| == 4 {
      assert t[4..] == "" && t[..4] == t;
    } else {
      var rest := t[4..];
      assert NoWhitespace(rest) by {
        forall i | 0 <= i < |rest| ensures !IsWhitespace(rest[i]) {
          assert rest[i] == t[i + 4];
        }
      }
      SpaceGroupsJoin(rest);
      assert TrailingSpace(rest) == TrailingSpace(t);
      assert Chunks(t)[1..] == Chunks(rest);
    }
  }

  /** A join of white-space-free pieces, none of them empty unless it is the
      only one, has no white space at either end. */
  lemma {:induction false} JoinTrimmed(parts: seq<string>)
    requires parts != []
    requires forall k :: 0 <= k < |parts| ==> NoWhitespace(parts[k])
    requires |parts| > 1 ==> forall k :: 0 <= k < |parts| ==> parts[k] != ""
    ensures IsTrimmed(Join(parts, " "))
    ensures |parts| > 1 ==> |Join(parts, " ")| > 0 && Join(parts, " ")[0] == parts[0][0]
    ensures |parts| > 1 ==> Join(parts, " ")[|Join(parts, " ")| - 1] == Last(parts)[|Last(parts)| - 1]
  {
    if |parts| > 1 {
      JoinTrimmed(parts[1..]);
      var j := Join(parts[1..], " ");
      assert Join(parts, " ") == parts[0] + " " + j;
      if |parts| == 2 {
        assert j == parts[1];
      }
      assert Last(parts[1..]) == Last(parts);
    }
  }

  function Last(parts: seq<string>): string
    requires parts != []
  {
    parts[|parts| - 1]
  }

  lemma TrimJoin(t: string)
    requires NoWhitespace(t)
    ensures Trim(SpaceGroups(t)) == Join(Chunks(t), " ")
  {
    var j, pad := Join(Chunks(t), " "), TrailingSpace(t);
    assert AllWhitespace(pad) by {
      assert pad == "" || pad == " ";
      assert IsWhitespace(' ');
    }
    ChunksJoinTrimmed(t);
    SpaceGroupsJoin(t);
    TrimRightPad(j, pad);
  }

  lemma ChunksJoinTrimmed(t: string)
    requires NoWhitespace(t)
    ensures IsTrimmed(Join(Chunks(t), " "))
  {
    ChunksNoWhitespace(t);
    ChunksNonEmpty(t);
    JoinTrimmed(Chunks(t));
  }

  /** White space after a trimmed string is all that `trim` removes. */
  lemma TrimRightPad(j: string, pad: string)
    requires IsTrimmed(j) && AllWhitespace(pad)
    ensures Trim(j + pad) == j
  {
    assert AllWhitespace("");
    TrimUnique("", j, pad);
    assert "" + j + pad == j + pad;
  }

  lemma {:induction false} ChunksNoWhitespace(t: string)
    requires NoWhitespace(t)
    ensures forall k :: 0 <= k < |Chunks(t)| ==> NoWhitespace(Chunks(t)[k])
    decreases |t|
  {
    if |t| > 4 {
      var rest := t[4..];
      assert NoWhitespace(rest) by {
        forall i | 0 <= i < |rest| ensures !IsWhitespace(rest[i]) {
          assert rest[i] == t[i + 4];
        }
      }
      ChunksNoWhitespace(rest);
      forall k | 0 <= k < |Chunks(t)| ensures NoWhitespace(Chunks(t)[k]) {
        if k > 0 {
          assert Chunks(t)[k] == Chunks(rest)[k - 1];
        }
      }
    }
  }

  lemma ChunksNonEmpty(t: string)
    ensures |Chunks(t)| > 1 ==> forall k :: 0 <= k < |Chunks(t)| ==> Chunks(t)[k] != ""
  {
    ChunkSizes(t);
  }

  /** Every group but the last has four characters and the last one to
      four (it is empty only for the empty string). */
  lemma {:induction false} ChunkSizes(t: string)
    ensures forall k :: 0 <= k < |Chunks(t)| - 1 ==> |Chunks(t)[k]| == 4
    ensures t != "" ==> 1 <= |Last(Chunks(t))| <= 4
    ensures |Chunks(t)| == if t == "" then 1 else (|t| + 3) / 4
    decreases |t|
  {
    if |t| > 4 {
      ChunkSizes(t[4..]);
      assert Chunks(t) == [t[..4]] + Chunks(t[4..]);
      assert Last(Chunks(t)) == Last(Chunks(t[4..]));
    }
  }

  /** The groups put together give the digits back. */
  lemma {:induction false} ChunksConcat(t: string)
    ensures Join(Chunks(t), "") == t
    decreases |t|
  {
    if |t| > 4 {
      ChunksConcat(t[4..]);
      assert Chunks(t) == [t[..4]] + Chunks(t[4..]);
      assert t == t[..4] + t[4..];
    }
  }

  lemma {:induction false} RemoveWhitespaceJoin(parts: seq<string>)
    requires parts != []
    requires forall k :: 0 <= k < |parts| ==> NoWhitespace(parts[k])
    ensures RemoveWhitespace(Join(parts, " ")) == Join(parts, "")
  {
    Sequences.FilterAll(parts[0], NotWhitespace);
    if |parts| > 1 {
      RemoveWhitespaceJoin(parts[1..]);
      var j := Join(parts[1..], " ");
      assert Join(parts, " ") == parts[0] + " " + j;
      Sequences.FilterAppend(parts[0] + " ", j, NotWhitespace);
      Sequences.FilterAppend(parts[0], " ", NotWhitespace);
      assert Sequences.Filter(" ", NotWhitespace) == "";
    }
  }

  lemma {:induction false} JoinLength(parts: seq<string>)
    requires parts != []
    ensures |Join(parts, " ")| == |Join(parts, "")| + |parts| - 1
  {
    if |parts| > 1 {
      JoinLength(parts[1..]);
    }
  }

  /** Formatting keeps the characters that are not white space: the
      formatted number with its spaces removed is the input with its white
      space removed. */
  lemma FormatKeepsCharacters(cardNumber: string)
    ensures RemoveWhitespace(FormatCardNumber(cardNumber)) == RemoveWhitespace(cardNumber)
  {
    var t := RemoveWhitespace(cardNumber);
    ChunksNoWhitespace(t);
    RemoveWhitespaceJoin(Chunks(t));
    ChunksConcat(t);
  }

  /** The space-separated groups of the result are the groups of four of
      the digits, the last one holding one to four characters. */
  lemma FormatGroups(cardNumber: string)
    ensures Split(FormatCardNumber(cardNumber), ' ') == Chunks(RemoveWhitespace(cardNumber))
  {
    var t := RemoveWhitespace(cardNumber);
    ChunksNoWhitespace(t);
    forall k | 0 <= k < |Chunks(t)| ensures ' ' !in Chunks(t)[k] {
      assert IsWhitespace(' ');
    }
    SplitJoin(Chunks(t), ' ');
  }

  /** Formatting is idempotent, so the write-back of the effect, which
      triggers the effect again, changes nothing the second time. */
  lemma FormatIdempotent(cardNumber: string)
    ensures FormatCardNumber(FormatCardNumber(cardNumber)) == FormatCardNumber(cardNumber)
  {
    FormatKeepsCharacters(cardNumber);
  }

  /** One space between each two groups. */
  lemma FormatLength(cardNumber: string)
    requires RemoveWhitespace(cardNumber) != ""
    ensures |FormatCardNumber(cardNumber)| == |RemoveWhitespace(cardNumber)| + (|RemoveWhitespace(cardNumber)| - 1) / 4
  {
    var t := RemoveWhitespace(cardNumber);
    JoinLength(Chunks(t));
    ChunksConcat(t);
    ChunkSizes(t);
  }

  /** Sixteen digits format to nineteen characters, the `maxLength` of the
      card-number input. */
  lemma SixteenDigitsFit(cardNumber: string)
    requires |RemoveWhitespace(cardNumber)| == 16
    ensures |FormatCardNumber(cardNumber)| == 19
  {
    FormatLength(cardNumber);
  }

  /** The card-number `<input>` element of the form. */
  class CardNumberInput {
    var value: string

    constructor (v: string)
      ensures value == v
    {
      value := v;
    }
  }

  /** The effect of lines 43-51: when the input exists and the watched
      value is not empty, the formatted value is written into the input if
      it differs from the watched one. */
  method FormatEffect(input: CardNumberInput?, cardNumber: string) returns (wrote: bool)
    modifies input
    ensures wrote <==> input != null && cardNumber != "" && FormatCardNumber(cardNumber) != cardNumber
    ensures wrote ==> input.value == FormatCardNumber(cardNumber)
    ensures !wrote && input != null ==> input.value == old(input.value)
  {
    wrote := false;
    if input != null && cardNumber != "" {
      var formatted := FormatCardNumber(cardNumber);
      if formatted != cardNumber {
        input.value := formatted;
        wrote := true;
      }
    }
  }

  /** Typing a number runs the effect, which writes the formatted number
      into the field. That write fires no input event, so the effect runs
      again only when the form next reports the field's value; a run on
      the formatted value writes nothing. */
  method TypeCardNumber(typed: string) returns (shown: string, secondWrite: bool)
    ensures typed != "" ==> shown == FormatCardNumber(typed)
    ensures !secondWrite
  {
    var input := new CardNumberInput(typed);
    var firstWrite := FormatEffect(input, typed);
    shown := input.value;
    if typed != "" {
      assert shown == FormatCardNumber(typed);
      FormatIdempotent(typed);
    }
    secondWrite := FormatEffect(input, shown);
  }

  // ------------------------------------------------------------- plans

  /** The two keys of the `plans` table, in the order `Object.entries`
      lists them. */
  datatype PlanKey = Pro | Enterprise

  const PlanKeys: seq<PlanKey> := [Pro, Enterprise]

  function KeyName(k: PlanKey): string
  {
    match k
    case Pro => "pro"
    case Enterprise => "enterprise"
  }

  /** An entry of the `plans` table; the icon is left out. */
  datatype PaidPlan = PaidPlan(name: string, price: nat, color: string, features: seq<string>)

  function PlanOf(k: PlanKey): PaidPlan
  {
    match k
    case Pro => PaidPlan("Pro", 19, "blue",
      ["Unlimited conversations", "Advanced AI models", "Priority support",
       "API access", "Custom themes", "Export conversations"])
    case Enterprise => PaidPlan("Enterprise", 99, "purple",
      ["Everything in Pro", "Team collaboration", "Admin dashboard",
       "SSO integration", "Custom branding", "Dedicated support"])
  }

  /** `plans[key]`: `None` for a key that is not in the table. */
  function PlanFor(key: string): (r: Option<PlanKey>)
    ensures r.Some? <==> key == "pro" || key == "enterprise"
    ensures r.Some? ==> KeyName(r.value) == key
  {
    if key == "pro" then Some(Pro)
    else if key == "enterprise" then Some(Enterprise)
    else None
  }

  /** Every key of the table is found under its own name, and the two
      names differ. */
  lemma PlanForKeyName(k: PlanKey)
    ensures PlanFor(KeyName(k)) == Some(k)
  {
  }

  /** `searchParams.get('plan') || 'pro'`. */
  function SelectedPlan(planParam: Option<string>): (r: string)
    ensures planParam.Some? && planParam.value != "" ==> r == planParam.value
    ensures planParam.None? || planParam.value == "" ==> r == "pro"
  {
    if planParam.Some? && planParam.value != "" then planParam.value else "pro"
  }

  /** Without a `plan` parameter the page offers Pro at 19 a month; the
      other plan is Enterprise at 99, and both list six features. */
  lemma DefaultPlanPrices()
    ensures PlanFor(SelectedPlan(None)) == Some(Pro) && PlanOf(Pro).price == 19
    ensures PlanFor(SelectedPlan(Some("enterprise"))) == Some(Enterprise) && PlanOf(Enterprise).price == 99
    ensures forall k: PlanKey :: |PlanOf(k).features| == 6
  {
  }

  // ------------------------------------------------------------ schema

  datatype CheckoutForm = CheckoutForm(
    cardNumber: string, expiryMonth: string, expiryYear: string, cvv: string,
    nameOnCard: string, billingAddress: string, city: string, zipCode: string, country: string)

  /** The fields of `checkoutSchema`, in the order it declares them. */
  datatype Field = CardNumber | ExpiryMonth | ExpiryYear | Cvv | NameOnCard | BillingAddress | City | ZipCode | Country

  const Fields: seq<Field> := [CardNumber, ExpiryMonth, ExpiryYear, Cvv, NameOnCard, BillingAddress, City, ZipCode, Country]

  function FieldValue(f: CheckoutForm, field: Field): string
  {
    match field
    case CardNumber => f.cardNumber
    case ExpiryMonth => f.expiryMonth
    case ExpiryYear => f.expiryYear
    case Cvv => f.cvv
    case NameOnCard => f.nameOnCard
    case BillingAddress => f.billingAddress
    case City => f.city
    case ZipCode => f.zipCode
    case Country => f.country
  }

  /** The `n` of the field's `z.string().min(n, message)`. */
  function MinLength(field: Field): nat
  {
    match field
    case CardNumber => 16
    case ExpiryMonth => 2
    case ExpiryYear => 4
    case Cvv => 3
    case _ => 1
  }

  /** The `message` of the field's rule. */
  function ErrorMessage(field: Field): string
  {
    match field
    case CardNumber => "Card number must be 16 digits"
    case ExpiryMonth => "Required"
    case ExpiryYear => "Required"
    case Cvv => "CVV must be 3 digits"
    case NameOnCard => "Name on card is required"
    case BillingAddress => "Billing address is required"
    case City => "City is required"
    case ZipCode => "ZIP code is required"
    case Country => "Country is required"
  }

  predicate Violates(f: CheckoutForm, field: Field)
  {
    |FieldValue(f, field)| < MinLength(field)
  }

  function Violated(f: CheckoutForm): Field -> bool
  {
    field => Violates(f, field)
  }

  /** The fields whose rule the form breaks, in schema order. */
  function SchemaErrors(f: CheckoutForm): (r: seq<Field>)
    ensures forall i :: 0 <= i < |r| ==> Violates(f, r[i])
    ensures forall i :: 0 <= i < |Fields| && Violates(f, Fields[i]) ==> Fields[i] in r
    ensures Sequences.IsSubsequence(r, Fields)
  {
    Sequences.Filter(Fields, Violated(f))
  }

  /** Every field whose rule the form breaks is reported. */
  lemma ViolationReported(f: CheckoutForm, field: Field)
    requires Violates(f, field)
    ensures field in SchemaErrors(f)
  {
    match field
    case CardNumber => assert Fields[0] == field;
    case ExpiryMonth => assert Fields[1] == field;
    case ExpiryYear => assert Fields[2] == field;
    case Cvv => assert Fields[3] == field;
    case NameOnCard => assert Fields[4] == field;
    case BillingAddress => assert Fields[5] == field;
    case City => assert Fields[6] == field;
    case ZipCode => assert Fields[7] == field;
    case Country => assert Fields[8] == field;
  }

  /** The schema accepts a form exactly when the card number has at least
      16 characters, the month 2, the year 4, the CVV 3 and the other five
      fields are not empty. */
  lemma SchemaAccepts(f: CheckoutForm)
    ensures SchemaErrors(f) == [] <==>
              && |f.cardNumber| >= 16 && |f.expiryMonth| >= 2 && |f.expiryYear| >= 4 && |f.cvv| >= 3
              && f.nameOnCard != "" && f.billingAddress != "" && f.city != "" && f.zipCode != "" && f.country != ""
  {
    if SchemaErrors(f) == [] {
      assert !Violates(f, Fields[0]) && !Violates(f, Fields[1]) && !Violates(f, Fields[2]);
      assert !Violates(f, Fields[3]) && !Violates(f, Fields[4]) && !Violates(f, Fields[5]);
      assert !Violates(f, Fields[6]) && !Violates(f, Fields[7]) && !Violates(f, Fields[8]);
      assert !Violates(f, CardNumber) && !Violates(f, ExpiryMonth) && !Violates(f, ExpiryYear);
      assert !Violates(f, Cvv) && !Violates(f, NameOnCard) && !Violates(f, BillingAddress);
      assert !Violates(f, City) && !Violates(f, ZipCode) && !Violates(f, Country);
    } else {
      assert Violates(f, SchemaErrors(f)[0]);
    }
  }

  /** A formatted sixteen-digit number meets the card-number rule. */
  lemma FormattedCardPasses(cardNumber: string)
    requires |RemoveWhitespace(cardNumber)| == 16
    ensures |FormatCardNumber(cardNumber)| >= MinLength(CardNumber)
  {
    SixteenDigitsFit(cardNumber);
  }

  // -------------------------------------------------------------- page

  /** The page's `selectedPlan` and `isProcessing` state. */
  class Checkout {
    var selectedPlan: string
    var isProcessing: bool

    constructor (planParam: Option<string>)
      ensures selectedPlan == SelectedPlan(planParam) && !isProcessing
    {
      selectedPlan := SelectedPlan(planParam);
      isProcessing := false;
    }

    /** Clicking a plan of the table selects it. */
    method SelectPlan(k: PlanKey)
      modifies this
      ensures selectedPlan == KeyName(k) && isProcessing == old(isProcessing)
    {
      selectedPlan := KeyName(k);
    }

    /** `handleSubmit(onSubmit)`: a form the schema rejects is not
        submitted and leaves the state alone; an accepted one shows the
        success message and moves to the profile page, with `isProcessing`
        back to false. The page only
        renders, and so can only be submitted, for a plan in the table. */
    method Submit(f: CheckoutForm) returns (toast: Option<string>, navigateTo: Option<string>)
      requires PlanFor(selectedPlan).Some?
      modifies this
      ensures selectedPlan == old(selectedPlan)
      ensures SchemaErrors(f) != [] ==> toast.None? && navigateTo.None? && isProcessing == old(isProcessing)
      ensures SchemaErrors(f) == [] ==>
                toast == Some(SuccessMessage(PlanFor(selectedPlan).value)) && navigateTo == Some("/profile")
                && !isProcessing
    {
      if SchemaErrors(f) != [] {
        return None, None;
      }
      var currentPlan := PlanFor(selectedPlan).value;
      isProcessing := true;
      toast := Some(SuccessMessage(currentPlan));
      navigateTo := Some("/profile");
      isProcessing := false;
    }
  }

  /** The toast shown after a successful upgrade. */
  function SuccessMessage(k: PlanKey): (r: string)
    ensures Text.StartsWith(r, "Successfully upgraded to ")
  {
    "Successfully upgraded to " + PlanOf(k).name + " plan!"
  }
}
