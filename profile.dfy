/** The account page: a saved profile, a working copy the form edits, and
    the edit / cancel / save / load transitions between them. The server's
    replies are inputs. */
module Profile {
  import opened Common

  datatype Address = Address(street: string, city: string, state: string, zipCode: string, country: string)

  datatype Preferences = Preferences(newsletter: bool, smsNotifications: bool, orderUpdates: bool)

  datatype UserProfile = UserProfile(
    id: int,
    firstName: string,
    lastName: string,
    email: string,
    phone: string,
    avatar: Option<string>,
    dateOfBirth: Option<string>,
    address: Address,
    preferences: Preferences,
    memberSince: string)

  /** The top-level text fields the form binds. */
  datatype ProfileField = FirstName | LastName | Email | Phone | DateOfBirth

  datatype AddressField = Street | City | State | ZipCode | Country

  datatype PreferenceField = Newsletter | SmsNotifications | OrderUpdates

  /** A top-level field's value; the date of birth may be unset. */
  function Field(p: UserProfile, f: ProfileField): Option<string> {
    match f
    case FirstName => Some(p.firstName)
    case LastName => Some(p.lastName)
    case Email => Some(p.email)
    case Phone => Some(p.phone)
    case DateOfBirth => p.dateOfBirth
  }

  /** `{...prev, [field]: value}`: exactly the named field changes. */
  function WithField(p: UserProfile, f: ProfileField, value: string): (r: UserProfile)
    ensures Field(r, f) == Some(value)
    ensures forall g :: g != f ==> Field(r, g) == Field(p, g)
    ensures r.id == p.id && r.avatar == p.avatar && r.memberSince == p.memberSince
    ensures r.address == p.address && r.preferences == p.preferences
  {
    match f
    case FirstName => p.(firstName := value)
    case LastName => p.(lastName := value)
    case Email => p.(email := value)
    case Phone => p.(phone := value)
    case DateOfBirth => p.(dateOfBirth := Some(value))
  }

  function AddressPart(a: Address, f: AddressField): string {
    match f
    case Street => a.street
    case City => a.city
    case State => a.state
    case ZipCode => a.zipCode
    case Country => a.country
  }

  /** `{...prev, address: {...prev.address, [field]: value}}`. */
  function WithAddressField(p: UserProfile, f: AddressField, value: string): (r: UserProfile)
    ensures AddressPart(r.address, f) == value
    ensures forall g :: g != f ==> AddressPart(r.address, g) == AddressPart(p.address, g)
    ensures r.(address := p.address) == p
  {
    var a := p.address;
    var a' := match f
      case Street => a.(street := value)
      case City => a.(city := value)
      case State => a.(state := value)
      case ZipCode => a.(zipCode := value)
      case Country => a.(country := value);
    p.(address := a')
  }

  function Preference(prefs: Preferences, f: PreferenceField): bool {
    match f
    case Newsletter => prefs.newsletter
    case SmsNotifications => prefs.smsNotifications
    case OrderUpdates => prefs.orderUpdates
  }

  /** `{...prev, preferences: {...prev.preferences, [field]: value}}`. */
  function WithPreference(p: UserProfile, f: PreferenceField, value: bool): (r: UserProfile)
    ensures Preference(r.preferences, f) == value
    ensures forall g :: g != f ==> Preference(r.preferences, g) == Preference(p.preferences, g)
    ensures r.(preferences := p.preferences) == p
  {
    var prefs := p.preferences;
    var prefs' := match f
      case Newsletter => prefs.(newsletter := value)
      case SmsNotifications => prefs.(smsNotifications := value)
      case OrderUpdates => prefs.(orderUpdates := value);
    p.(preferences := prefs')
  }

  /** Writing back the value a field already has changes nothing, and a
      second write to a field overrides the first. */
  lemma FieldWritesCompose(p: UserProfile, f: ProfileField, v: string, w: string)
    ensures Field(p, f).Some? ==> WithField(p, f, Field(p, f).value) == p
    ensures WithField(WithField(p, f, v), f, w) == WithField(p, f, w)
  {
  }

  /** Writes to different fields commute. */
  lemma FieldWritesCommute(p: UserProfile, f: ProfileField, g: ProfileField, v: string, w: string)
    requires f != g
    ensures WithField(WithField(p, f, v), g, w) == WithField(WithField(p, g, w), f, v)
  {
  }

  datatype MessageKind = Success | Error

  datatype Message = Message(kind: MessageKind, text: string)

  const SavedText: string := "Profile updated successfully!"
  const RejectedText: string := "Failed to update profile. Please try again."
  const ThrewText: string := "Something went wrong. Please try again."

  /** The outcome of the PUT: a 2xx with the stored profile, another status,
      or a thrown error. */
  datatype SaveReply = Saved(updated: UserProfile) | Rejected | Threw

  /** The outcome of the GET: a 2xx with the profile, another status, or a
      thrown error. */
  datatype FetchReply = Fetched(data: UserProfile) | NotOk | FetchThrew

  /** The alert a save leaves behind. */
  function SaveMessage(reply: SaveReply): (m: Message)
    ensures m.kind == Success <==> reply.Saved?
    ensures m.text == SavedText <==> reply.Saved?
    ensures reply.Rejected? ==> m == Message(Error, RejectedText)
    ensures reply.Threw? ==> m == Message(Error, ThrewText)
  {
    match reply
    case Saved(_) => Message(Success, SavedText)
    case Rejected => Message(Error, RejectedText)
    case Threw => Message(Error, ThrewText)
  }

  /** The profile the page starts with, before any load. */
  function InitialProfile(): UserProfile {
    UserProfile(
      1, "John", "Doe", "john.doe@example.com", "+1 (555) 123-4567",
      Some("/placeholder.svg?height=100&width=100"), Some("1990-01-15"),
      Address("123 Main St", "New York", "NY", "10001", "United States"),
      Preferences(true, false, true),
      "2023-01-15")
  }

  class ProfilePage {
    var profile: UserProfile
    var editedProfile: UserProfile
    var isEditing: bool
    var isLoading: bool
    var message: Option<Message>

    constructor()
      ensures profile == InitialProfile() && editedProfile == profile
      ensures !isEditing && !isLoading && message == None
    {
      profile := InitialProfile();
      editedProfile := InitialProfile();
      isEditing := false;
      isLoading := false;
      message := None;
    }

    /** The "Edit" button. */
    method StartEditing()
      modifies this`isEditing
      ensures isEditing
    {
      isEditing := true;
    }

    /** `handleInputChange`: only the working copy, and in it only `f`. */
    method HandleInputChange(f: ProfileField, value: string)
      modifies this`editedProfile
      ensures editedProfile == WithField(old(editedProfile), f, value)
    {
      editedProfile := WithField(editedProfile, f, value);
    }

    /** `handleAddressChange`: only the working copy's address part `f`. */
    method HandleAddressChange(f: AddressField, value: string)
      modifies this`editedProfile
      ensures editedProfile == WithAddressField(old(editedProfile), f, value)
    {
      editedProfile := WithAddressField(editedProfile, f, value);
    }

    /** `handlePreferenceChange`: only the working copy's preference `f`. */
    method HandlePreferenceChange(f: PreferenceField, value: bool)
      modifies this`editedProfile
      ensures editedProfile == WithPreference(old(editedProfile), f, value)
    {
      editedProfile := WithPreference(editedProfile, f, value);
    }

    /** What a preference checkbox shows: the working copy while editing,
        the saved profile otherwise. */
    function ShownPreference(f: PreferenceField): (b: bool)
      reads this
      ensures isEditing ==> b == Preference(editedProfile.preferences, f)
      ensures !isEditing ==> b == Preference(profile.preferences, f)
    {
      Preference((if isEditing then editedProfile else profile).preferences, f)
    }

    /** A preference checkbox's change handler: it reaches
        `handlePreferenceChange` only while editing. */
    method PreferenceCheckbox(f: PreferenceField, checked: bool)
      modifies this`editedProfile
      ensures isEditing ==> editedProfile == WithPreference(old(editedProfile), f, checked)
      ensures isEditing ==> ShownPreference(f) == checked
      ensures !isEditing ==> editedProfile == old(editedProfile)
    {
      if isEditing {
        HandlePreferenceChange(f, checked);
      }
    }

    /** `handleCancel`: drop the working copy's changes, leave edit mode,
        clear the alert. */
    method HandleCancel()
      modifies this`editedProfile, this`isEditing, this`message
      ensures editedProfile == profile && !isEditing && message == None
    {
      editedProfile := profile;
      isEditing := false;
      message := None;
    }

    /** `handleSave`: the working copy is sent (`sent`), and the reply
        decides the rest. On success the reply becomes the saved profile and
        edit mode ends; otherwise the profile and the mode stay. The working
        copy is never touched, and loading is over afterwards. */
    method HandleSave(reply: SaveReply) returns (sent: UserProfile)
      modifies this`profile, this`isEditing, this`isLoading, this`message
      ensures sent == editedProfile
      ensures reply.Saved? ==> profile == reply.updated && !isEditing
      ensures !reply.Saved? ==> profile == old(profile) && isEditing == old(isEditing)
      ensures message == Some(SaveMessage(reply))
      ensures !isLoading
    {
      isLoading := true;
      message := None;
      sent := editedProfile;
      match reply {
        case Saved(updated) =>
          profile := updated;
          isEditing := false;
          message := Some(Message(Success, SavedText));
        case Rejected =>
          message := Some(Message(Error, RejectedText));
        case Threw =>
          message := Some(Message(Error, ThrewText));
      }
      isLoading := false;
    }

    /** `fetchProfile`: a 2xx reply replaces both the saved profile and the
        working copy with the same data; anything else changes nothing. */
    method FetchProfile(reply: FetchReply)
      modifies this`profile, this`editedProfile
      ensures reply.Fetched? ==> profile == reply.data && editedProfile == reply.data
      ensures !reply.Fetched? ==> profile == old(profile) && editedProfile == old(editedProfile)
    {
      if reply.Fetched? {
        profile := reply.data;
        editedProfile := reply.data;
      }
    }
  }
}
