/** The profile page of `UserProfile.tsx`: the first and last name the
    edit form starts from, the full name it saves, the edit and cancel
    handlers, and the subscription panel with its plan, status, price and
    upgrade offers. */
module UserProfile {
  import opened Wrappers
  import opened Text
  import CheckoutPage

  // ------------------------------------------------------------ users

  datatype PlanName = Free | Pro | Enterprise
  datatype PlanStatus = Active | Inactive | Trial

  datatype Subscription = Subscription(plan: PlanName, status: PlanStatus)

  /** The signed-in user, as far as the page reads it. */
  datatype ProfileUser = ProfileUser(email: string, name: string, subscription: Option<Subscription>)

  // ------------------------------------------------------------- names

  /** `name.split(' ')[0]`. */
  function FirstName(name: string): string
  {
    Split(name, ' ')[0]
  }

  /** `name.split(' ').slice(1).join(' ')`. */
  function LastName(name: string): string
  {
    Join(Split(name, ' ')[1..], " ")
  }

  /** The first name is the name up to its first space and the last name
      everything after that space; a name without a space is all first
      name. */
  lemma NameParts(name: string)
    ensures ' ' !in FirstName(name)
    ensures ' ' in name ==> name == FirstName(name) + " " + LastName(name)
    ensures ' ' !in name ==> FirstName(name) == name && LastName(name) == ""
  {
    var parts := Split(name, ' ');
    JoinSplit(name, ' ');
    if |parts| == 1 {
      assert Join(parts, " ") == parts[0];
    } else {
      assert Join(parts, " ") == parts[0] + " " + Join(parts[1..], " ");
      assert name[|parts[0]|] == ' ';
    }
  }

  /** `` `${firstName} ${lastName}`.trim() ``. */
  function FullName(firstName: string, lastName: string): (r: string)
    ensures IsTrimmed(r)
  {
    Trim(firstName + " " + lastName)
  }

  /** Saving the first and last name the form starts from gives back the
      user's name whenever that name has no white space at its ends. */
  lemma NameRoundTrip(name: string)
    requires IsTrimmed(name)
    ensures FullName(FirstName(name), LastName(name)) == name
  {
    NameParts(name);
    if ' ' in name {
      TrimTrimmed(name);
    } else {
      assert AllWhitespace(" ");
      TrimUnique([], name, " ");
      assert [] + name + " " == FirstName(name) + " " + LastName(name);
    }
  }

  // -------------------------------------------------------------- form

  datatype ProfileForm = ProfileForm(firstName: string, lastName: string, email: string)

  /** The form's `defaultValues`, also used by `handleCancel`: every field
      is empty when nobody is signed in. */
  function Defaults(user: Option<ProfileUser>): (r: ProfileForm)
    ensures user.None? ==> r == ProfileForm("", "", "")
    ensures user.Some? ==> r.email == user.value.email
    ensures user.Some? && ' ' !in user.value.name ==> r.firstName == user.value.name && r.lastName == ""
    ensures user.Some? && ' ' in user.value.name ==> user.value.name == r.firstName + " " + r.lastName
  {
    if user.None? then ProfileForm("", "", "")
    else
      NameParts(user.value.name);
      ProfileForm(FirstName(user.value.name), LastName(user.value.name), user.value.email)
  }

  /** The read-only view shows "Not provided" for an empty name part. */
  function Shown(part: string): (r: string)
    ensures part != "" ==> r == part
    ensures part == "" ==> r == "Not provided"
  {
    if part != "" then part else "Not provided"
  }

  datatype ProfileField = FirstNameField | LastNameField | EmailField

  function ProfileMessage(field: ProfileField): string
  {
    match field
    case FirstNameField => "First name is required"
    case LastNameField => "Last name is required"
    case EmailField => "Please enter a valid email address"
  }

  /** The fields `profileSchema` rejects, in schema order. Whether a
      string is an email address is the parameter `isEmail`. */
  function ProfileErrors(data: ProfileForm, isEmail: string -> bool): (r: seq<ProfileField>)
    ensures FirstNameField in r <==> data.firstName == ""
    ensures LastNameField in r <==> data.lastName == ""
    ensures EmailField in r <==> !isEmail(data.email)
    ensures r == [] <==> data.firstName != "" && data.lastName != "" && isEmail(data.email)
  {
    (if data.firstName == "" then [FirstNameField] else [])
    + (if data.lastName == "" then [LastNameField] else [])
    + (if isEmail(data.email) then [] else [EmailField])
  }

  /** A signed-in user whose name has no space starts with an empty last
      name, which the schema rejects until one is typed. */
  lemma SingleWordNameNeedsLastName(u: ProfileUser, isEmail: string -> bool)
    requires ' ' !in u.name
    ensures LastNameField in ProfileErrors(Defaults(Some(u)), isEmail)
  {
  }

  // ------------------------------------------------------------- page

  /** The page's state: the signed-in user, the two flags and the values
      in the edit form. */
  class ProfilePage {
    var user: Option<ProfileUser>
    var isEditing: bool
    var isLoading: bool
    var form: ProfileForm

    constructor (signedIn: Option<ProfileUser>)
      ensures user == signedIn && form == Defaults(signedIn)
      ensures !isEditing && !isLoading
    {
      user := signedIn;
      isEditing := false;
      isLoading := false;
      form := Defaults(signedIn);
    }

    /** The "Edit Profile" button. */
    method StartEditing()
      modifies this
      ensures isEditing && user == old(user) && form == old(form) && isLoading == old(isLoading)
    {
      isEditing := true;
    }

    /** Typing into the form. */
    method Type(data: ProfileForm)
      modifies this
      ensures form == data && user == old(user)
      ensures isEditing == old(isEditing) && isLoading == old(isLoading)
    {
      form := data;
    }

    /** `handleCancel`: leaves editing and puts back exactly the values the
        form was created with for the current user. */
    method Cancel()
      modifies this
      ensures !isEditing && form == Defaults(user) && user == old(user)
      ensures isLoading == old(isLoading)
    {
      isEditing := false;
      form := Defaults(user);
    }

    /** `handleSubmit(onSubmit)`: a rejected form changes nothing; an
        accepted one stores the trimmed full name and the email in the
        signed-in user, shows the success message and leaves editing. */
    method Submit(isEmail: string -> bool) returns (toast: Option<string>)
      modifies this
      ensures ProfileErrors(old(form), isEmail) != [] ==>
                toast.None? && user == old(user) && isEditing == old(isEditing) && isLoading == old(isLoading)
      ensures ProfileErrors(old(form), isEmail) == [] ==>
                && toast == Some("Profile updated successfully!")
                && user == UpdateUser(old(user), FullName(old(form).firstName, old(form).lastName), old(form).email)
                && !isEditing && !isLoading
      ensures form == old(form)
    {
      if ProfileErrors(form, isEmail) != [] {
        return None;
      }
      isLoading := true;
      user := UpdateUser(user, FullName(form.firstName, form.lastName), form.email);
      toast := Some("Profile updated successfully!");
      isEditing := false;
      isLoading := false;
    }
  }

  /** `updateUser({ name, email })`: the new name and email replace the old
      ones of the signed-in user; nobody signed in stays nobody. */
  function UpdateUser(user: Option<ProfileUser>, name: string, email: string): (r: Option<ProfileUser>)
    ensures r.Some? <==> user.Some?
    ensures r.Some? ==> r.value == user.value.(name := name, email := email)
  {
    if user.Some? then Some(user.value.(name := name, email := email)) else None
  }

  /** Saving the form as it starts, for a user with a trimmed name, leaves
      the user as it was. */
  lemma SaveDefaultsKeepsUser(u: ProfileUser)
    requires IsTrimmed(u.name)
    ensures UpdateUser(Some(u), FullName(Defaults(Some(u)).firstName, Defaults(Some(u)).lastName),
                       Defaults(Some(u)).email) == Some(u)
  {
    NameRoundTrip(u.name);
  }

  // ------------------------------------------------------ subscription

  /** `user?.subscription?.plan || 'free'`. */
  function CurrentPlan(user: Option<ProfileUser>): (r: PlanName)
    ensures user.None? || user.value.subscription.None? ==> r == Free
    ensures user.Some? && user.value.subscription.Some? ==> r == user.value.subscription.value.plan
  {
    if user.Some? && user.value.subscription.Some? then user.value.subscription.value.plan else Free
  }

  /** `user?.subscription?.status || 'active'`. */
  function CurrentStatus(user: Option<ProfileUser>): (r: PlanStatus)
    ensures user.None? || user.value.subscription.None? ==> r == Active
    ensures user.Some? && user.value.subscription.Some? ==> r == user.value.subscription.value.status
  {
    if user.Some? && user.value.subscription.Some? then user.value.subscription.value.status else Active
  }

  /** The dollars a month the panel shows for each plan. */
  function MonthlyPrice(p: PlanName): nat
  {
    match p
    case Free => 0
    case Pro => 19
    case Enterprise => 99
  }

  /** The profile's plan for a key of the checkout page's table. */
  function PaidPlanName(k: CheckoutPage.PlanKey): (r: PlanName)
    ensures r != Free
  {
    match k
    case Pro => Pro
    case Enterprise => Enterprise
  }

  /** The profile shows the same prices the checkout page charges. */
  lemma PricesAgree(k: CheckoutPage.PlanKey)
    ensures MonthlyPrice(PaidPlanName(k)) == CheckoutPage.PlanOf(k).price
  {
  }

  /** The plans offered under "Upgrade Your Plan", in display order. */
  function UpgradeOptions(p: PlanName): (r: seq<CheckoutPage.PlanKey>)
    ensures |r| <= 2
  {
    match p
    case Free => [CheckoutPage.Pro, CheckoutPage.Enterprise]
    case Pro => [CheckoutPage.Enterprise]
    case Enterprise => []
  }

  /** The upgrade section is shown exactly when the plan is not Enterprise,
      and it offers exactly the paid plans that cost more than the current
      one. */
  lemma UpgradeOptionsAreDearer(p: PlanName)
    ensures UpgradeOptions(p) != [] <==> p != Enterprise
    ensures forall k: CheckoutPage.PlanKey ::
              k in UpgradeOptions(p) <==> CheckoutPage.PlanOf(k).price > MonthlyPrice(p)
  {
  }

  /** A free user is offered Pro and Enterprise; a Pro user only
      Enterprise. */
  lemma UpgradeOffers()
    ensures UpgradeOptions(Free) == [CheckoutPage.Pro, CheckoutPage.Enterprise]
    ensures UpgradeOptions(Pro) == [CheckoutPage.Enterprise]
    ensures UpgradeOptions(CurrentPlan(None)) == UpgradeOptions(Free)
  {
  }

  /** The `plan` parameter of an upgrade link, `/checkout?plan=<key>`. */
  function UpgradeParam(k: CheckoutPage.PlanKey): string
  {
    CheckoutPage.KeyName(k)
  }

  /** Following an upgrade link opens the checkout page on that plan, at
      the price the profile showed. */
  lemma UpgradeLinkSelectsPlan(p: PlanName, i: nat)
    requires i < |UpgradeOptions(p)|
    ensures CheckoutPage.PlanFor(CheckoutPage.SelectedPlan(Some(UpgradeParam(UpgradeOptions(p)[i]))))
              == Some(UpgradeOptions(p)[i])
    ensures CheckoutPage.PlanOf(UpgradeOptions(p)[i]).price == MonthlyPrice(PaidPlanName(UpgradeOptions(p)[i]))
  {
  }
}
