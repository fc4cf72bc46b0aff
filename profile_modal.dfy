/** The profile editor: a form initialised from the local user's profile,
    edited one field at a time, and handed back unchanged on submit. */
module ProfileModal {

  /** The profile fields the editor knows about; every one is text. */
  datatype User = User(id: string, name: string, dogName: string, dogBreed: string, status: string)

  /** `keyof User`. */
  datatype Field = Id | Name | DogName | DogBreed | Status

  /** `user[field]`. */
  function Get(u: User, f: Field): string
  {
    match f
    case Id => u.id
    case Name => u.name
    case DogName => u.dogName
    case DogBreed => u.dogBreed
    case Status => u.status
  }

  /** `{ ...u, [field]: value }`: the named field takes the new value and every
      other field keeps its old one. */
  function Set(u: User, f: Field, value: string): (r: User)
    ensures Get(r, f) == value
    ensures forall g :: g != f ==> Get(r, g) == Get(u, g)
  {
    match f
    case Id => u.(id := value)
    case Name => u.(name := value)
    case DogName => u.(dogName := value)
    case DogBreed => u.(dogBreed := value)
    case Status => u.(status := value)
  }

  /** Two users agreeing on every field are the same user. */
  lemma FieldsDetermineUser(u: User, v: User)
    requires forall f :: Get(u, f) == Get(v, f)
    ensures u == v
  {
    assert Get(u, Id) == Get(v, Id) && Get(u, Name) == Get(v, Name) && Get(u, DogName) == Get(v, DogName);
    assert Get(u, DogBreed) == Get(v, DogBreed) && Get(u, Status) == Get(v, Status);
  }

  /** A second change to the same field overrides the first. */
  lemma SetSetSameField(u: User, f: Field, a: string, b: string)
    ensures Set(Set(u, f, a), f, b) == Set(u, f, b)
  {
    var l, r := Set(Set(u, f, a), f, b), Set(u, f, b);
    forall g ensures Get(l, g) == Get(r, g) {}
    FieldsDetermineUser(l, r);
  }

  /** Changes to different fields commute. */
  lemma SetSetCommute(u: User, f: Field, g: Field, a: string, b: string)
    requires f != g
    ensures Set(Set(u, f, a), g, b) == Set(Set(u, g, b), f, a)
  {
    var l, r := Set(Set(u, f, a), g, b), Set(Set(u, g, b), f, a);
    forall h ensures Get(l, h) == Get(r, h) {}
    FieldsDetermineUser(l, r);
  }

  /** Writing back a field's own value changes nothing. */
  lemma SetOwnValue(u: User, f: Field)
    ensures Set(u, f, Get(u, f)) == u
  {
    var r := Set(u, f, Get(u, f));
    forall g ensures Get(r, g) == Get(u, g) {}
    FieldsDetermineUser(r, u);
  }

  class ProfileForm {
    var formData: User

    /** `useState(user)`: the form starts as the profile it was opened with. */
    constructor (user: User)
      ensures formData == user
    {
      formData := user;
    }

    /** `handleChange(field, value)`. */
    method HandleChange(field: Field, value: string)
      modifies this
      ensures formData == Set(old(formData), field, value)
      ensures Get(formData, field) == value
      ensures forall g :: g != field ==> Get(formData, g) == Get(old(formData), g)
    {
      formData := Set(formData, field, value);
    }

    /** `handleSubmit`: the form is passed to `onSave` as it stands; the
        result is the record `onSave` receives. */
    method HandleSubmit() returns (saved: User)
      ensures saved == formData
    {
      saved := formData;
    }
  }

  /** Opening the editor and submitting without edits hands back the profile
      it was opened with. */
  method SubmitUnedited(user: User) returns (saved: User)
    ensures saved == user
  {
    var form := new ProfileForm(user);
    saved := form.HandleSubmit();
  }
}
