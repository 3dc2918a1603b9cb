/**
 * The "Add New Song" form, src/components/AddSongModal.tsx: choosing the
 * MP3 file, the payload `handleSubmit` passes to `onAddSong`, the busy flag
 * around that awaited call, and the reset `handleClose` performs.
 *
 * `URL.createObjectURL` is an input (the token it returns) and the URLs
 * `URL.revokeObjectURL` is called with are recorded in `revoked`. The
 * submit button is disabled without a file or while a submit runs, and the
 * `required` inputs (title, artist, age range) block the submit event while
 * empty, as the cover input's `type="url"` does while it holds text that is
 * not a URL; whether the browser reads a non-empty cover as a URL is an input.
 */
module AddSong {
  import opened Types
  import opened Text

  const Mp3Mime: string := "audio/mpeg"

  datatype SongForm = SongForm(
    title: string,
    artist: string,
    coverUrl: string,
    audioUrl: string,
    ageRange: string)

  /** The form as first rendered and after every close (src/components/AddSongModal.tsx:14-20). */
  const InitialForm: SongForm := SongForm("", "", DefaultCover, "", "")

  /** The parts of a chosen `File` the form reads. */
  datatype AudioFile = AudioFile(name: string, mimeType: string)

  /** What `onAddSong` receives: a song without id, owner or creation time. */
  datatype NewSong = NewSong(
    title: string,
    artist: string,
    coverUrl: string,
    audioUrl: string,
    category: string,
    ageRange: string)

  /** The input that each text or select `onChange` handler writes. */
  datatype Field = Title | Artist | CoverUrl | AgeRange

  function WithField(f: SongForm, field: Field, v: string): SongForm
  {
    match field
    case Title => f.(title := v)
    case Artist => f.(artist := v)
    case CoverUrl => f.(coverUrl := v)
    case AgeRange => f.(ageRange := v)
  }

  /** `file && file.type === 'audio/mpeg'` */
  predicate Accepts(file: Option<AudioFile>)
  {
    file.Some? && file.value.mimeType == Mp3Mime
  }

  /** `disabled={!audioFile || isLoading}`, negated. */
  predicate SubmitEnabled(audioFile: Option<AudioFile>, isLoading: bool)
  {
    audioFile.Some? && !isLoading
  }

  /** The `required` inputs are filled in. */
  predicate RequiredFilled(f: SongForm)
  {
    f.title != "" && f.artist != "" && f.ageRange != ""
  }

  /**
   * Constraint validation lets the submit through: the required inputs are
   * filled and the cover is empty or, as `coverIsUrl` says, a URL.
   */
  predicate Submittable(f: SongForm, coverIsUrl: bool)
  {
    RequiredFilled(f) && (f.coverUrl == "" || coverIsUrl)
  }

  /** The object of src/components/AddSongModal.tsx:47-51. */
  function Payload(f: SongForm, playlistCategory: string): (p: NewSong)
    ensures p.category == playlistCategory
    ensures p.coverUrl != []
    ensures p.coverUrl == if AllWhite(f.coverUrl) then DefaultCover else Trim(f.coverUrl)
    ensures p.title == f.title && p.artist == f.artist && p.audioUrl == f.audioUrl && p.ageRange == f.ageRange
  {
    NewSong(f.title, f.artist, TrimOr(f.coverUrl, DefaultCover), f.audioUrl, playlistCategory, f.ageRange)
  }

  /** Normalising the cover twice is normalising it once. */
  lemma PayloadCoverIdempotent(f: SongForm, playlistCategory: string)
    ensures var p := Payload(f, playlistCategory);
      Payload(f.(coverUrl := p.coverUrl), playlistCategory) == p
  {
    assert DefaultCover[0] == 'h' && DefaultCover[|DefaultCover| - 1] == '0';
    TrimOrIdempotent(f.coverUrl, DefaultCover);
  }

  class AddSongForm {
    var formData: SongForm
    var audioFile: Option<AudioFile>
    var audioPreviewUrl: string
    var isLoading: bool
    /** The object URLs passed to `URL.revokeObjectURL`, in order. */
    var revoked: seq<string>
    /** Calls of `onClose` made by the form. */
    var closes: nat
    /**
     * The preview URL the running submit's `handleClose` closure was
     * created with: the one of the render in which submit was pressed.
     */
    var submitPreviewUrl: string

    constructor ()
      ensures formData == InitialForm && audioFile.None? && audioPreviewUrl == "" && !isLoading
      ensures revoked == [] && closes == 0 && submitPreviewUrl == ""
    {
      formData := InitialForm;
      audioFile := None;
      audioPreviewUrl := "";
      isLoading := false;
      revoked := [];
      closes := 0;
      submitPreviewUrl := "";
    }

    /** One of the text or select `onChange` handlers. */
    method Change(field: Field, v: string)
      modifies this`formData
      ensures formData == WithField(old(formData), field, v)
    {
      formData := WithField(formData, field, v);
    }

    /**
     * `handleFileChange` (src/components/AddSongModal.tsx:27-40) for the
     * first chosen file, if any; `objectUrl` is what `URL.createObjectURL`
     * returns for it. A file that is not an MP3 only raises the alert.
     */
    method FileChange(file: Option<AudioFile>, objectUrl: string) returns (alerted: bool)
      modifies this`audioFile, this`audioPreviewUrl, this`formData
      ensures alerted <==> !Accepts(file)
      ensures Accepts(file) ==>
        audioFile == file && audioPreviewUrl == objectUrl &&
        formData == old(formData).(audioUrl := objectUrl)
      ensures !Accepts(file) ==>
        audioFile == old(audioFile) && audioPreviewUrl == old(audioPreviewUrl) && formData == old(formData)
    {
      if file.Some? && file.value.mimeType == Mp3Mime {
        audioFile := file;
        audioPreviewUrl := objectUrl;
        formData := formData.(audioUrl := objectUrl);
        alerted := false;
      } else {
        alerted := true;
      }
    }

    /**
     * `handleClose` (src/components/AddSongModal.tsx:62-76) as pressed now:
     * revoke the current preview URL if there is one, reset the form and
     * tell the parent.
     */
    method Close()
      modifies this`formData, this`audioFile, this`audioPreviewUrl, this`revoked, this`closes
      ensures formData == InitialForm && audioFile.None? && audioPreviewUrl == ""
      ensures revoked == old(revoked) + (if old(audioPreviewUrl) != "" then [old(audioPreviewUrl)] else [])
      ensures closes == old(closes) + 1
    {
      CloseWith(audioPreviewUrl);
    }

    /**
     * A `handleClose` closure that saw `preview` as the preview URL: it
     * revokes that URL, whatever the preview is now, while its setters
     * reset the current state.
     */
    method CloseWith(preview: string)
      modifies this`formData, this`audioFile, this`audioPreviewUrl, this`revoked, this`closes
      ensures formData == InitialForm && audioFile.None? && audioPreviewUrl == ""
      ensures revoked == old(revoked) + (if preview != "" then [preview] else [])
      ensures closes == old(closes) + 1
    {
      if preview != "" {
        revoked := revoked + [preview];
      }
      formData := InitialForm;
      audioFile := None;
      audioPreviewUrl := "";
      closes := closes + 1;
    }

    /**
     * The synchronous part of `handleSubmit` (src/components/AddSongModal.tsx:42-51):
     * `added` is the argument of `onAddSong`, or `None` when the disabled
     * button, an empty required field or a cover that is not a URL keeps the
     * form from submitting.
     */
    method SubmitBegin(playlistCategory: string, coverIsUrl: bool) returns (added: Option<NewSong>)
      modifies this`isLoading, this`submitPreviewUrl
      ensures SubmitEnabled(audioFile, old(isLoading)) && Submittable(formData, coverIsUrl) ==>
                added == Some(Payload(formData, playlistCategory))
      ensures SubmitEnabled(audioFile, old(isLoading)) && Submittable(formData, coverIsUrl) ==>
                isLoading && submitPreviewUrl == audioPreviewUrl
      ensures !(SubmitEnabled(audioFile, old(isLoading)) && Submittable(formData, coverIsUrl)) ==>
                added == None && isLoading == old(isLoading) && submitPreviewUrl == old(submitPreviewUrl)
    {
      var sends := SubmitEnabled(audioFile, isLoading) && Submittable(formData, coverIsUrl);
      if !sends {
        return None;
      }
      added := Some(Payload(formData, playlistCategory));
      isLoading := true;
      submitPreviewUrl := audioPreviewUrl;
    }

    /**
     * The rest of `handleSubmit` once `onAddSong` settles
     * (src/components/AddSongModal.tsx:53-59): a success closes and resets
     * the form, a failure raises the alert and keeps what was entered. The
     * `handleClose` it calls is the one of the render in which submit was
     * pressed, so it revokes the preview URL of that moment: a file chosen
     * while the upload runs keeps its URL unrevoked, and a close pressed
     * meanwhile is followed by a second revocation and a second `onClose`.
     */
    method SubmitSettled(failed: bool) returns (alerted: bool)
      requires isLoading
      modifies this`formData, this`audioFile, this`audioPreviewUrl, this`revoked, this`closes, this`isLoading
      ensures !isLoading && alerted == failed
      ensures !failed ==>
        formData == InitialForm && audioFile.None? && audioPreviewUrl == "" &&
        revoked == old(revoked) + (if old(submitPreviewUrl) != "" then [old(submitPreviewUrl)] else []) &&
        closes == old(closes) + 1
      ensures failed ==>
        formData == old(formData) && audioFile == old(audioFile) &&
        audioPreviewUrl == old(audioPreviewUrl) && revoked == old(revoked) && closes == old(closes)
    {
      alerted := failed;
      if !failed {
        CloseWith(submitPreviewUrl);
      }
      isLoading := false;
    }
  }

  /**
   * Choose "u1", submit, choose "u2" while the upload runs, and the upload
   * succeeds: the form revokes "u1" only, so "u2" is never revoked.
   */
  method FileChosenDuringUploadLeaks() returns (revoked: seq<string>)
    ensures revoked == ["u1"]
  {
    var form := StartUpload();
    var _ := form.FileChange(Some(AudioFile("b.mp3", Mp3Mime)), "u2");
    assert form.isLoading && form.submitPreviewUrl == "u1" && form.revoked == [];
    var _ := form.SubmitSettled(false);
    assert form.revoked == [] + ["u1"];
    revoked := form.revoked;
  }

  /** A filled-in form whose MP3 "u1" is being uploaded. */
  method StartUpload() returns (form: AddSongForm)
    ensures fresh(form)
    ensures form.isLoading && form.submitPreviewUrl == "u1" && form.revoked == []
  {
    form := FilledForm();
    var _ := form.SubmitBegin("Lullabies", true);
  }

  /** A form ready to submit, with the MP3 whose preview is "u1". */
  method FilledForm() returns (form: AddSongForm)
    ensures SubmitEnabled(form.audioFile, form.isLoading) && Submittable(form.formData, true)
    ensures form.audioPreviewUrl == "u1" && form.revoked == []
    ensures fresh(form)
  {
    form := new AddSongForm();
    form.Change(Title, "Twinkle");
    form.Change(Artist, "Anon");
    form.Change(AgeRange, "3-5");
    assert RequiredFilled(form.formData);
    var _ := form.FileChange(Some(AudioFile("a.mp3", Mp3Mime)), "u1");
  }
}
