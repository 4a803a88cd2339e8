/**
  The profile picker (ProfileSelector.jsx): avatar validation and regeneration, the avatar
  gallery, the profile form with its edit and create dispatch, and the profile list.
  The avatar generator is a parameter `gen` from seed to SVG markup.
*/
module ProfileSelector {
  import opened Wrappers
  import opened Entities
  import Text
  import ProfileContext

  /** A usable avatar: a string whose trimmed form starts with `<svg`. */
  predicate IsValidAvatar(avatar: Option<string>) {
    avatar.Some? && Text.StartsWith(Text.Trim(avatar.value), "<svg")
  }

  /** The generator produces usable avatars for every seed. */
  ghost predicate GeneratesSvg(gen: string -> string) {
    forall seed :: IsValidAvatar(Some(gen(seed)))
  }

  /** The seed a profile's avatar is generated from: its name, or "profile" when the name is empty. */
  function SeedBase(name: string): (b: string)
    ensures b != ""
    ensures name != "" ==> b == name
  {
    Text.OrElse(name, "profile")
  }

  /** The avatar a loaded profile is shown with: its own when usable, otherwise one generated from its name. */
  function LoadedAvatar(avatar: Option<string>, name: string, gen: string -> string): (r: string)
    ensures IsValidAvatar(avatar) ==> r == avatar.value
    ensures !IsValidAvatar(avatar) ==> r == gen(SeedBase(name))
  {
    if IsValidAvatar(avatar) then avatar.value else gen(SeedBase(name))
  }

  /** The avatar a submitted form is saved with (`form.avatar && form.avatar.trim().startsWith("<svg")`). */
  function SubmittedAvatar(formAvatar: string, name: string, gen: string -> string): string {
    if formAvatar != "" && Text.StartsWith(Text.Trim(formAvatar), "<svg") then formAvatar else gen(SeedBase(name))
  }

  /** Loading and submitting apply the same rule; an empty form avatar counts as missing. */
  lemma SubmitAgreesWithLoad(formAvatar: string, name: string, gen: string -> string)
    ensures SubmittedAvatar(formAvatar, name, gen) == LoadedAvatar(Some(formAvatar), name, gen)
    ensures SubmittedAvatar("", name, gen) == LoadedAvatar(None, name, gen)
  {
    EmptyAvatarUnusable();
    if formAvatar != "" {
      assert IsValidAvatar(Some(formAvatar)) == Text.StartsWith(Text.Trim(formAvatar), "<svg");
    }
  }

  /** An empty avatar is not usable: it trims to "" and so cannot start with `<svg`. */
  lemma EmptyAvatarUnusable()
    ensures !IsValidAvatar(Some(""))
  {
    assert Text.Trim("") == "";
  }

  /** With a generator of SVG markup, every avatar the rule yields is usable, and applying it again keeps it. */
  lemma LoadedAvatarValid(avatar: Option<string>, name: string, gen: string -> string)
    requires GeneratesSvg(gen)
    ensures IsValidAvatar(Some(LoadedAvatar(avatar, name, gen)))
    ensures LoadedAvatar(Some(LoadedAvatar(avatar, name, gen)), name, gen) == LoadedAvatar(avatar, name, gen)
  {
    var r := LoadedAvatar(avatar, name, gen);
    if !IsValidAvatar(avatar) {
      assert IsValidAvatar(Some(gen(SeedBase(name))));
    }
  }

  /** The six gallery seeds: the base, then the base followed by 1 to 5. */
  function AvatarSeeds(name: string): (seeds: seq<string>)
    ensures |seeds| == 6
    ensures seeds[0] == SeedBase(name)
    ensures forall i :: 1 <= i < 6 ==> seeds[i] == SeedBase(name) + [Text.DigitChar(i)]
  {
    var b := SeedBase(name);
    [b, b + "1", b + "2", b + "3", b + "4", b + "5"]
  }

  /** The gallery seeds are pairwise distinct, so a deterministic generator is asked for six different avatars. */
  lemma AvatarSeedsDistinct(name: string)
    ensures forall i, j :: 0 <= i < j < 6 ==> AvatarSeeds(name)[i] != AvatarSeeds(name)[j]
  {
    var s := AvatarSeeds(name);
    var b := SeedBase(name);
    forall i, j | 0 <= i < j < 6
      ensures s[i] != s[j]
    {
      assert |s[j]| == |b| + 1;
      if i > 0 {
        assert s[i][|b|] != s[j][|b|];
      }
    }
  }

  /** The gallery: one generated avatar per seed, in seed order. */
  function AvatarOptions(name: string, gen: string -> string): (options: seq<string>)
    ensures |options| == 6
    ensures forall i :: 0 <= i < 6 ==> options[i] == gen(AvatarSeeds(name)[i])
  {
    var seeds := AvatarSeeds(name);
    seq(6, i requires 0 <= i < 6 => gen(seeds[i]))
  }

  /** Picking any gallery entry gives the form an avatar that submitting keeps. */
  lemma GalleryPickIsKept(name: string, gen: string -> string, i: nat)
    requires GeneratesSvg(gen) && i < 6
    ensures SubmittedAvatar(AvatarOptions(name, gen)[i], name, gen) == AvatarOptions(name, gen)[i]
  {
    var svg := AvatarOptions(name, gen)[i];
    assert IsValidAvatar(Some(gen(AvatarSeeds(name)[i])));
    SubmitAgreesWithLoad(svg, name, gen);
  }

  /**
    `Number(value)` for the text of a form field: a blank string is 0, a string of decimal
    digits (white space around it allowed) is its value, anything else is `NaN` (`None`).
  */
  function ToNumber(s: string): (n: Option<int>)
    ensures Text.IsBlank(s) ==> n == Some(0)
    ensures n.Some? ==> n.value >= 0
  {
    var t := Text.Trim(s);
    if t == "" then Some(0)
    else if forall i :: 0 <= i < |t| ==> Text.IsDigit(t[i]) then Some(Text.ParseDecimal(t))
    else None
  }

  /** The age options of the form (18, 13 and 7), and any other natural number, read back as themselves. */
  lemma ToNumberDigits(n: nat)
    ensures ToNumber(Text.Digits(n)) == Some(n)
  {
    DigitsUntrimmed(n);
    ToNumberOfDigitString(Text.Digits(n));
    Text.ParseDigits(n);
  }

  /** A decimal rendering has no white space around it, so `trim` leaves it as it is. */
  lemma DigitsUntrimmed(n: nat)
    ensures Text.Trim(Text.Digits(n)) == Text.Digits(n)
  {
    Text.TrimNoSpace(Text.Digits(n));
  }

  /** A non-empty string of digits that `trim` leaves alone is read as its decimal value. */
  lemma ToNumberOfDigitString(d: string)
    requires d != [] && Text.Trim(d) == d
    requires forall i :: 0 <= i < |d| ==> Text.IsDigit(d[i])
    ensures ToNumber(d) == Some(Text.ParseDecimal(d))
  {
  }

  /** The form. `kind` is the profile's `type`; an age of `NaN` is `None`. */
  datatype ProfileForm = ProfileForm(
    name: string,
    kind: string,
    avatar: string,
    language: string,
    ageRestriction: Option<int>)

  /** The empty form the page starts with and returns to after saving or cancelling. */
  const EmptyForm: ProfileForm := ProfileForm("", "adult", "", "es", Some(18))

  /** The inputs bound to `handleChange`, by their `name` attribute. */
  datatype FormField = NameField | KindField | LanguageField | AgeField

  /** The form after `handleChange`: the named field takes the value, converted to a number for the age. */
  function Changed(form: ProfileForm, field: FormField, value: string): (r: ProfileForm)
    ensures r.name == (if field == NameField then value else form.name)
    ensures r.kind == (if field == KindField then value else form.kind)
    ensures r.language == (if field == LanguageField then value else form.language)
    ensures r.ageRestriction == (if field == AgeField then ToNumber(value) else form.ageRestriction)
    ensures r.avatar == form.avatar
  {
    match field
    case NameField => form.(name := value)
    case KindField => form.(kind := value)
    case LanguageField => form.(language := value)
    case AgeField => form.(ageRestriction := ToNumber(value))
  }

  /** Choosing one of the age options stores that age as a number. */
  lemma AgeOptionStoresNumber(form: ProfileForm, age: nat)
    requires age == 18 || age == 13 || age == 7
    ensures Changed(form, AgeField, Text.Digits(age)).ageRestriction == Some(age)
  {
    ToNumberDigits(age);
  }

  /** The form `handleEdit` fills from a profile: language defaults to "es", a missing or zero age to 18. */
  function EditForm(p: Profile): (f: ProfileForm)
    ensures f.name == p.name && f.kind == p.kind
    ensures f.avatar == (if p.avatar.Some? then p.avatar.value else "")
    ensures f.language == (if p.language != "" then p.language else "es")
    ensures f.ageRestriction == (if p.ageRestriction.Some? && p.ageRestriction.value != 0 then p.ageRestriction else Some(18))
  {
    ProfileForm(
      p.name,
      p.kind,
      p.avatar.GetOr(""),
      Text.OrElse(p.language, "es"),
      if p.ageRestriction.Some? && p.ageRestriction.value != 0 then p.ageRestriction else Some(18))
  }

  /** Editing a profile that already has an avatar, a language and an age reproduces exactly those fields. */
  lemma EditFormKeepsCompleteProfile(p: Profile)
    requires p.avatar.Some? && p.language != "" && p.ageRestriction.Some? && p.ageRestriction.value != 0
    ensures var f := EditForm(p);
      f == ProfileForm(p.name, p.kind, p.avatar.value, p.language, p.ageRestriction)
  {
  }

  /** A request the page sends. */
  datatype ProfileRequest =
    | CreateProfile(body: ProfileForm)
    | UpdateProfile(id: string, body: ProfileForm)
    | DeleteProfile(id: string)
    | RepairAvatar(id: string, avatar: string)

  /** The request a submit sends: an update of `editId` when it is set, a create otherwise. */
  function SubmitRequest(form: ProfileForm, editId: Option<string>, gen: string -> string): (r: ProfileRequest)
    ensures r.CreateProfile? || r.UpdateProfile?
    ensures r.UpdateProfile? <==> editId.Some? && editId.value != ""
    ensures r.UpdateProfile? ==> r.id == editId.value
    ensures r.body == form.(avatar := SubmittedAvatar(form.avatar, form.name, gen))
  {
    var body := form.(avatar := SubmittedAvatar(form.avatar, form.name, gen));
    if editId.Some? && editId.value != "" then UpdateProfile(editId.value, body) else CreateProfile(body)
  }

  /** A profile as the list shows it: its avatar replaced by the one the load rule yields. */
  function Normalized(p: Profile, gen: string -> string): (q: Profile)
    ensures q == p.(avatar := Some(LoadedAvatar(p.avatar, p.name, gen)))
  {
    p.(avatar := Some(LoadedAvatar(p.avatar, p.name, gen)))
  }

  /** Every profile of the list, normalised, in the order the server sent them. */
  function NormalizeAll(ps: seq<Profile>, gen: string -> string): (r: seq<Profile>)
    ensures |r| == |ps|
    ensures forall i :: 0 <= i < |ps| ==> r[i] == Normalized(ps[i], gen)
  {
    seq(|ps|, i requires 0 <= i < |ps| => Normalized(ps[i], gen))
  }

  /** With a generator of SVG markup, every listed profile has a usable avatar and loading again changes nothing. */
  lemma NormalizeAllValid(ps: seq<Profile>, gen: string -> string)
    requires GeneratesSvg(gen)
    ensures forall i :: 0 <= i < |ps| ==> IsValidAvatar(NormalizeAll(ps, gen)[i].avatar)
    ensures NormalizeAll(NormalizeAll(ps, gen), gen) == NormalizeAll(ps, gen)
  {
    var r := NormalizeAll(ps, gen);
    forall i | 0 <= i < |ps|
      ensures IsValidAvatar(r[i].avatar) && Normalized(r[i], gen) == r[i]
    {
      LoadedAvatarValid(ps[i].avatar, ps[i].name, gen);
    }
  }

  /** `q` is the repair a load sends for `p`: `p`'s avatar is unusable and `q` stores the generated one. */
  predicate RepairOf(q: ProfileRequest, p: Profile, gen: string -> string) {
    !IsValidAvatar(p.avatar) && q == RepairAvatar(p.id, gen(SeedBase(p.name)))
  }

  /** The repair requests of a load: one per profile whose avatar is unusable, in list order. */
  function Repairs(ps: seq<Profile>, gen: string -> string): (r: seq<ProfileRequest>)
    ensures |r| <= |ps|
    ensures forall q :: q in r ==> exists i :: 0 <= i < |ps| && RepairOf(q, ps[i], gen)
    ensures forall i :: 0 <= i < |ps| && !IsValidAvatar(ps[i].avatar) ==>
      RepairAvatar(ps[i].id, gen(SeedBase(ps[i].name))) in r
  {
    if ps == [] then []
    else
      var rest := Repairs(ps[1..], gen);
      assert forall q :: q in rest ==> exists i :: 0 <= i < |ps| && RepairOf(q, ps[i], gen) by {
        forall q | q in rest
          ensures exists i :: 0 <= i < |ps| && RepairOf(q, ps[i], gen)
        {
          var k :| 0 <= k < |ps[1..]| && RepairOf(q, ps[1..][k], gen);
          assert ps[k + 1] == ps[1..][k];
        }
      }
      assert forall i :: 1 <= i < |ps| ==> ps[i] == ps[1..][i - 1];
      if IsValidAvatar(ps[0].avatar) then rest
      else [RepairAvatar(ps[0].id, gen(SeedBase(ps[0].name)))] + rest
  }

  /** A list whose avatars are all usable sends no repair request. */
  lemma {:induction false} NoRepairsWhenAllValid(ps: seq<Profile>, gen: string -> string)
    requires forall i :: 0 <= i < |ps| ==> IsValidAvatar(ps[i].avatar)
    ensures Repairs(ps, gen) == []
  {
    if ps != [] {
      assert forall i :: 0 <= i < |ps[1..]| ==> ps[1..][i] == ps[i + 1];
      NoRepairsWhenAllValid(ps[1..], gen);
    }
  }

  /** The answer to `GET /api/profiles`; a failure may carry the server's message. */
  datatype ProfilesResponse = ProfilesLoaded(profiles: seq<Profile>) | ProfilesFailed(message: string)

  /** The page's state. */
  class ProfileSelectorView {
    var profiles: seq<Profile>
    var loading: bool
    var error: string
    var form: ProfileForm
    var editId: Option<string>
    var showForm: bool
    var avatarOptions: seq<string>

    constructor ()
      ensures profiles == [] && loading && error == ""
      ensures form == EmptyForm && editId.None? && !showForm && avatarOptions == []
    {
      profiles, loading, error := [], true, "";
      form, editId, showForm, avatarOptions := EmptyForm, None, false, [];
    }

    /** The gallery effect: while the form is shown, the options follow the form's name. */
    method RefreshGallery(gen: string -> string)
      modifies this
      ensures showForm ==> avatarOptions == AvatarOptions(form.name, gen)
      ensures !showForm ==> avatarOptions == old(avatarOptions)
      ensures profiles == old(profiles) && loading == old(loading) && error == old(error)
      ensures form == old(form) && editId == old(editId) && showForm == old(showForm)
    {
      if showForm {
        avatarOptions := AvatarOptions(form.name, gen);
      }
    }

    /** `fetchProfiles`: returns the avatar repairs it sends; loading ends either way. */
    method FetchProfiles(response: ProfilesResponse, gen: string -> string) returns (repairs: seq<ProfileRequest>)
      modifies this
      ensures !loading
      ensures response.ProfilesLoaded? ==>
        profiles == NormalizeAll(response.profiles, gen) && error == "" && repairs == Repairs(response.profiles, gen)
      ensures response.ProfilesFailed? ==>
        profiles == old(profiles) && error == Text.OrElse(response.message, "No se pudieron cargar los perfiles") && repairs == []
      ensures form == old(form) && editId == old(editId) && showForm == old(showForm) && avatarOptions == old(avatarOptions)
    {
      match response {
        case ProfilesLoaded(ps) =>
          repairs := Repairs(ps, gen);
          profiles := NormalizeAll(ps, gen);
          error := "";
        case ProfilesFailed(msg) =>
          repairs := [];
          error := Text.OrElse(msg, "No se pudieron cargar los perfiles");
      }
      loading := false;
    }

    /** `handleChange` for one input. */
    method HandleChange(field: FormField, value: string)
      modifies this
      ensures form == Changed(old(form), field, value)
      ensures profiles == old(profiles) && loading == old(loading) && error == old(error)
      ensures editId == old(editId) && showForm == old(showForm) && avatarOptions == old(avatarOptions)
    {
      form := Changed(form, field, value);
    }

    /** Clicking a gallery entry makes it the form's avatar. */
    method PickAvatar(svg: string)
      modifies this
      ensures form == old(form).(avatar := svg)
      ensures profiles == old(profiles) && loading == old(loading) && error == old(error)
      ensures editId == old(editId) && showForm == old(showForm) && avatarOptions == old(avatarOptions)
    {
      form := form.(avatar := svg);
    }

    /**
      `handleSubmit`, which runs only once the name is non-empty (the input is `required`): the request goes out with the checked avatar; on success the form is
      reset and hidden, on failure the server's message or a fixed text becomes the error.
    */
    method HandleSubmit(gen: string -> string, ok: bool, failure: string) returns (req: ProfileRequest)
      requires form.name != ""
      modifies this
      ensures req == SubmitRequest(old(form), old(editId), gen)
      ensures ok ==> form == EmptyForm && editId.None? && !showForm && error == old(error)
      ensures !ok ==> form == old(form) && editId == old(editId) && showForm == old(showForm)
                      && error == Text.OrElse(failure, "No se pudo guardar el perfil")
      ensures profiles == old(profiles) && loading == old(loading) && avatarOptions == old(avatarOptions)
    {
      req := SubmitRequest(form, editId, gen);
      if ok {
        form, editId, showForm := EmptyForm, None, false;
      } else {
        error := Text.OrElse(failure, "No se pudo guardar el perfil");
      }
    }

    /** `handleEdit`: the form is filled from the profile and shown, and the profile's id is the one to update. */
    method HandleEdit(p: Profile)
      modifies this
      ensures form == EditForm(p) && editId == Some(p.id) && showForm
      ensures profiles == old(profiles) && loading == old(loading) && error == old(error)
      ensures avatarOptions == old(avatarOptions)
    {
      form, editId, showForm := EditForm(p), Some(p.id), true;
    }

    /** The "+ Agregar perfil" button: an empty form, shown, for a new profile. */
    method OpenNewForm()
      modifies this
      ensures form == EmptyForm && editId.None? && showForm
      ensures profiles == old(profiles) && loading == old(loading) && error == old(error)
      ensures avatarOptions == old(avatarOptions)
    {
      form, editId, showForm := EmptyForm, None, true;
    }

    /** The "Cancelar" button: the form is emptied and hidden. */
    method CancelForm()
      modifies this
      ensures form == EmptyForm && editId.None? && !showForm
      ensures profiles == old(profiles) && loading == old(loading) && error == old(error)
      ensures avatarOptions == old(avatarOptions)
    {
      form, editId, showForm := EmptyForm, None, false;
    }

    /** `handleDelete`: nothing without confirmation; a failed delete sets the error. */
    method HandleDelete(id: string, confirmed: bool, ok: bool) returns (req: Option<ProfileRequest>)
      modifies this
      ensures req == (if confirmed then Some(DeleteProfile(id)) else None)
      ensures error == (if confirmed && !ok then "No se pudo eliminar el perfil" else old(error))
      ensures profiles == old(profiles) && loading == old(loading) && form == old(form)
      ensures editId == old(editId) && showForm == old(showForm) && avatarOptions == old(avatarOptions)
    {
      if !confirmed {
        req := None;
        return;
      }
      req := Some(DeleteProfile(id));
      if !ok {
        error := "No se pudo eliminar el perfil";
      }
    }

    /** `handleSelect`: the profile becomes the active one and the page moves to "/songs". */
    method HandleSelect(session: ProfileContext.ProfileSession, p: Profile) returns (path: string)
      modifies session, session.store
      ensures session.profile == Some(p)
      ensures session.store.entries == ProfileContext.StoreProfile(old(session.store.entries), Some(p))
      ensures session.Valid()
      ensures path == "/songs"
    {
      session.SetProfile(Some(p));
      path := "/songs";
    }
  }

  /** Editing then saving sends an update of that profile whose fields are the edit form's. */
  lemma EditThenSubmitUpdates(p: Profile, gen: string -> string)
    requires p.id != ""
    ensures var r := SubmitRequest(EditForm(p), Some(p.id), gen);
      r == UpdateProfile(p.id, EditForm(p).(avatar := SubmittedAvatar(EditForm(p).avatar, p.name, gen)))
  {
  }
}
