/**
 * The "Create New Playlist" form, src/components/CreatePlaylistModal.tsx:
 * its field state, the payload `handleSubmit` passes to `onCreatePlaylist`,
 * and the reset that follows.
 *
 * The form's `required` fields (name, category, author) block the submit
 * event while empty, and the cover input's `type="url"` blocks it while it
 * holds text that is not a URL, as the browser's constraint validation
 * does; whether the browser reads a non-empty cover as a URL is an input.
 * The payload is normalised only in its description and cover URL.
 */
module CreatePlaylist {
  import opened Types
  import opened Text

  const NoDescription: string := "No description provided"

  datatype PlaylistForm = PlaylistForm(
    name: string,
    description: string,
    coverUrl: string,
    category: string,
    createdBy: string)

  /** The form as first rendered and after every submit (src/components/CreatePlaylistModal.tsx:13-19). */
  const InitialForm: PlaylistForm := PlaylistForm("", "", DefaultCover, "", "")

  /** What `onCreatePlaylist` receives: a playlist without id, owner, creation time or songs. */
  datatype NewPlaylist = NewPlaylist(
    name: string,
    description: string,
    coverUrl: string,
    category: string,
    createdBy: string)

  /** The input that each `onChange` handler writes. */
  datatype Field = Name | Description | CoverUrl | Category | CreatedBy

  /** `setFormData({ ...formData, <field>: e.target.value })` */
  function WithField(f: PlaylistForm, field: Field, v: string): PlaylistForm
  {
    match field
    case Name => f.(name := v)
    case Description => f.(description := v)
    case CoverUrl => f.(coverUrl := v)
    case Category => f.(category := v)
    case CreatedBy => f.(createdBy := v)
  }

  /** The `required` inputs are filled in. */
  predicate RequiredFilled(f: PlaylistForm)
  {
    f.name != "" && f.category != "" && f.createdBy != ""
  }

  /**
   * Constraint validation lets the submit through: the required inputs are
   * filled and the cover is empty or, as `coverIsUrl` says, a URL.
   */
  predicate Submittable(f: PlaylistForm, coverIsUrl: bool)
  {
    RequiredFilled(f) && (f.coverUrl == "" || coverIsUrl)
  }

  /** The object of src/components/CreatePlaylistModal.tsx:23-27. */
  function Payload(f: PlaylistForm): (p: NewPlaylist)
    ensures p.name == f.name && p.category == f.category && p.createdBy == f.createdBy
    ensures p.description != [] && p.coverUrl != []
    ensures p.description == if AllWhite(f.description) then NoDescription else Trim(f.description)
    ensures p.coverUrl == if AllWhite(f.coverUrl) then DefaultCover else Trim(f.coverUrl)
  {
    NewPlaylist(f.name, TrimOr(f.description, NoDescription), TrimOr(f.coverUrl, DefaultCover),
                f.category, f.createdBy)
  }

  /** A payload put back into the form and submitted again comes out unchanged. */
  lemma PayloadIdempotent(f: PlaylistForm)
    ensures var p := Payload(f);
      Payload(PlaylistForm(p.name, p.description, p.coverUrl, p.category, p.createdBy)) == p
  {
    FallbacksTrimmed();
    TrimOrIdempotent(f.description, NoDescription);
    TrimOrIdempotent(f.coverUrl, DefaultCover);
  }

  /** Neither default starts or ends with white space. */
  lemma FallbacksTrimmed()
    ensures !IsWhite(DefaultCover[0]) && !IsWhite(DefaultCover[|DefaultCover| - 1])
    ensures !IsWhite(NoDescription[0]) && !IsWhite(NoDescription[|NoDescription| - 1])
  {
    assert DefaultCover[0] == 'h' && DefaultCover[|DefaultCover| - 1] == '0';
    assert NoDescription[0] == 'N' && NoDescription[|NoDescription| - 1] == 'd';
  }

  class CreatePlaylistForm {
    var formData: PlaylistForm
    /** Calls of `onClose` made by the form. */
    var closes: nat

    constructor ()
      ensures formData == InitialForm && closes == 0
    {
      formData := InitialForm;
      closes := 0;
    }

    /** One of the `onChange` handlers. */
    method Change(field: Field, v: string)
      modifies this`formData
      ensures formData == WithField(old(formData), field, v)
    {
      formData := WithField(formData, field, v);
    }

    /**
     * A submit of the form (src/components/CreatePlaylistModal.tsx:21-36):
     * `created` is the argument of `onCreatePlaylist`, or `None` when an
     * empty required field or a cover that is not a URL keeps the browser
     * from submitting.
     */
    method Submit(coverIsUrl: bool) returns (created: Option<NewPlaylist>)
      modifies this
      ensures Submittable(old(formData), coverIsUrl) ==>
                created == Some(Payload(old(formData))) && formData == InitialForm && closes == old(closes) + 1
      ensures !Submittable(old(formData), coverIsUrl) ==>
                created == None && formData == old(formData) && closes == old(closes)
    {
      if !Submittable(formData, coverIsUrl) {
        return None;
      }
      created := Some(Payload(formData));
      formData := InitialForm;
      closes := closes + 1;
    }
  }
}
