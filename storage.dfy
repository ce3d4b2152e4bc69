/** Where campaign records live on disk (`save`, `save_locally`, `export`,
    `delete`, `clean_path_name` and `get_local_campaigns` of
    `src/campaign.rs`). The file system is a map from path to record; what
    a file holds is the record itself, its JSON form being left abstract. */
module Storage {
  import opened Wrappers
  import opened Text
  import opened Campaigns

  const STORAGE_FOLDER: string := ".storage/"
  const CAMPAIGNS_FOLDER: string := STORAGE_FOLDER + "campaigns/"
  const EXPORT_FOLDER: string := "export/"
  const CAMPAIGN_EXTENSION: string := ".campaign"

  /** The characters `clean_path_name` keeps: all but newline and space. */
  predicate Kept(c: char) {
    c != '\n' && c != ' '
  }

  predicate AllKept(s: string) {
    forall i :: 0 <= i < |s| ==> Kept(s[i])
  }

  /** `s` with every space and newline removed. */
  function Cleaned(s: string): (r: string)
    ensures AllKept(r)
    ensures |r| <= |s|
  {
    if s == [] then []
    else Cleaned(s[..|s| - 1]) + (if Kept(s[|s| - 1]) then [s[|s| - 1]] else [])
  }

  /** Cleaning works character by character: cleaning a concatenation is
      concatenating the cleaned parts. */
  lemma {:induction false} CleanedAppend(a: string, b: string)
    ensures Cleaned(a + b) == Cleaned(a) + Cleaned(b)
  {
    if b == [] {
      assert a + b == a;
    } else {
      assert (a + b)[..|a + b| - 1] == a + b[..|b| - 1];
      CleanedAppend(a, b[..|b| - 1]);
    }
  }

  /** A string with no space or newline is left as it is. */
  lemma {:induction false} CleanedOfClean(s: string)
    requires AllKept(s)
    ensures Cleaned(s) == s
  {
    if s != [] {
      CleanedOfClean(s[..|s| - 1]);
    }
  }

  /** Cleaning twice is cleaning once. */
  lemma CleanedIdempotent(s: string)
    ensures Cleaned(Cleaned(s)) == Cleaned(s)
  {
    CleanedOfClean(Cleaned(s));
  }

  /** Every character other than space and newline survives, as often as it
      occurred; together with `CleanedAppend` this says the survivors keep
      their order. */
  lemma {:induction false} CleanedKeepsCount(s: string, c: char)
    requires Kept(c)
    ensures multiset(Cleaned(s))[c] == multiset(s)[c]
  {
    if s != [] {
      var init, last := s[..|s| - 1], s[|s| - 1];
      assert s == init + [last];
      CleanedKeepsCount(init, c);
    }
  }

  /** A Rust `String` that the source grows with `push_str` and shrinks
      with `retain`, passed around as `&mut String`. */
  class PathBuffer {
    var text: string

    constructor (init: string)
      ensures text == init
    {
      text := init;
    }

    method PushStr(s: string)
      modifies this
      ensures text == old(text) + s
    {
      text := text + s;
    }
  }

  /** `clean_path_name`: removes every newline and space, in place, keeping
      the order of the other characters. */
  method CleanPathName(path: PathBuffer)
    modifies path
    ensures path.text == Cleaned(old(path.text))
  {
    var text := path.text;
    var kept: string := [];
    var i := 0;
    while i < |text|
      invariant 0 <= i <= |text|
      invariant kept == Cleaned(text[..i])
    {
      assert text[..i + 1][..i] == text[..i];
      if Kept(text[i]) {
        kept := kept + [text[i]];
      }
      i := i + 1;
    }
    assert text[..|text|] == text;
    path.text := kept;
  }

  /** The file a record named `name` is saved to under `folder`: the path
      built by `save`, cleaned, then trimmed. */
  function SavePath(folder: string, name: string): (path: string)
    ensures AllKept(path)
    ensures path == [] || (!IsWhitespace(path[0]) && !IsWhitespace(path[|path| - 1]))
  {
    var cleaned := Cleaned(folder + name + CAMPAIGN_EXTENSION);
    TrimKeepsAllKept(cleaned);
    Trim(cleaned)
  }

  /** A slice of a string with no space or newline has none either. */
  lemma SliceKept(s: string, k: nat, m: nat)
    requires AllKept(s) && k + m <= |s|
    ensures AllKept(s[k..k + m])
  {
  }

  /** Trimming a string with no space or newline leaves none. */
  lemma TrimKeepsAllKept(s: string)
    requires AllKept(s)
    ensures AllKept(Trim(s))
  {
    TrimCutsOnlyWhitespace(s);
    SliceKept(s, |s| - |TrimStart(s)|, |Trim(s)|);
  }

  /** The file `delete` removes: the same path, cleaned but not trimmed. */
  function DeletePath(name: string): (path: string)
    ensures path == CAMPAIGNS_FOLDER + Cleaned(name) + CAMPAIGN_EXTENSION
  {
    FixedPartsKept();
    CleanedFramed(CAMPAIGNS_FOLDER, name, CAMPAIGN_EXTENSION);
    Cleaned(CAMPAIGNS_FOLDER + name + CAMPAIGN_EXTENSION)
  }

  /** The trim in `save` changes nothing for a folder that starts with a
      non-blank character: the cleaned path then starts with it and ends
      with the `n` of `.campaign`. */
  lemma SaveTrimIsNoOp(folder: string, name: string)
    requires |folder| > 0 && !IsWhitespace(folder[0])
    ensures SavePath(folder, name) == Cleaned(folder + name + CAMPAIGN_EXTENSION)
  {
    var p := Cleaned(folder + name + CAMPAIGN_EXTENSION);
    assert Kept(folder[0]);
    CleanedPathEnds(folder, name);
    assert |p| > 0 && p[0] == folder[0] && p[|p| - 1] == 'n';
    assert !IsWhitespace(p[0]);
    assert !IsWhitespace(p[|p| - 1]);
    TrimUnchanged(p);
    assert Trim(p) == p;
    assert SavePath(folder, name) == Trim(p);
  }

  lemma CleanedPathEnds(folder: string, name: string)
    requires |folder| > 0 && Kept(folder[0])
    ensures var p := Cleaned(folder + name + CAMPAIGN_EXTENSION);
      |p| > 0 && p[0] == folder[0] && p[|p| - 1] == 'n'
  {
    CleanedKeepsFirst(folder[0], folder[1..] + name + CAMPAIGN_EXTENSION);
    assert [folder[0]] + (folder[1..] + name + CAMPAIGN_EXTENSION) == folder + name + CAMPAIGN_EXTENSION;
    CleanedEndsWithExtension(folder + name);
  }

  lemma CleanedKeepsFirst(c: char, rest: string)
    requires Kept(c)
    ensures |Cleaned([c] + rest)| > 0 && Cleaned([c] + rest)[0] == c
  {
    CleanedAppend([c], rest);
    assert Cleaned([c]) == [c] by {
      assert [c][..0] == [];
    }
  }

  lemma CleanedEndsWithExtension(s: string)
    ensures Cleaned(s + CAMPAIGN_EXTENSION) == Cleaned(s) + CAMPAIGN_EXTENSION
    ensures Cleaned(s + CAMPAIGN_EXTENSION)[|Cleaned(s + CAMPAIGN_EXTENSION)| - 1] == 'n'
  {
    CleanedAppend(s, CAMPAIGN_EXTENSION);
    CleanedOfClean(CAMPAIGN_EXTENSION);
  }

  /** `save_locally` writes, and `delete` removes, one and the same file:
      `.storage/campaigns/` + name + `.campaign` with spaces and newlines
      dropped. */
  lemma LocalSaveAndDeleteAgree(name: string)
    ensures SavePath(CAMPAIGNS_FOLDER, name) == DeletePath(name)
    ensures DeletePath(name) == CAMPAIGNS_FOLDER + Cleaned(name) + CAMPAIGN_EXTENSION
  {
    FixedPartsKept();
    SaveTrimIsNoOp(CAMPAIGNS_FOLDER, name);
    assert SavePath(CAMPAIGNS_FOLDER, name) == DeletePath(name);
    CleanedFramed(CAMPAIGNS_FOLDER, name, CAMPAIGN_EXTENSION);
  }

  /** Under a clean folder that starts with a non-blank character, the file
      `save` writes is the folder, the cleaned name and the extension. */
  lemma SavePathOf(folder: string, name: string)
    requires |folder| > 0 && AllKept(folder) && !IsWhitespace(folder[0])
    ensures SavePath(folder, name) == folder + Cleaned(name) + CAMPAIGN_EXTENSION
  {
    SaveTrimIsNoOp(folder, name);
    FixedPartsKept();
    CleanedFramed(folder, name, CAMPAIGN_EXTENSION);
  }

  /** The folder and the extension contain no space or newline. */
  lemma FixedPartsKept()
    ensures AllKept(CAMPAIGNS_FOLDER) && AllKept(EXPORT_FOLDER) && AllKept(CAMPAIGN_EXTENSION)
    ensures CAMPAIGNS_FOLDER[0] == '.' && EXPORT_FOLDER[0] == 'e'
  {
  }

  /** Cleaning a name between two clean parts cleans only the name. */
  lemma CleanedFramed(a: string, x: string, b: string)
    requires AllKept(a) && AllKept(b)
    ensures Cleaned(a + x + b) == a + Cleaned(x) + b
  {
    CleanedAppend(a + x, b);
    CleanedAppend(a, x);
    CleanedOfClean(a);
    CleanedOfClean(b);
  }

  /** The local path of a record: a backed record is filed under its inner
      campaign's name, so it replaces the tracked campaign's file. */
  function LocalPath(r: LocalCampaign): (path: string)
    ensures path == CAMPAIGNS_FOLDER + Cleaned(r.Terms().name) + CAMPAIGN_EXTENSION
  {
    LocalSaveAndDeleteAgree(r.Terms().name);
    DeletePath(r.Terms().name)
  }

  /** The export path of a record: under `export/`, by the campaign's name. */
  function ExportPath(r: LocalCampaign): (path: string)
    ensures path == EXPORT_FOLDER + Cleaned(r.Terms().name) + CAMPAIGN_EXTENSION
  {
    var name := r.Terms().name;
    FixedPartsKept();
    SavePathOf(EXPORT_FOLDER, name);
    SavePath(EXPORT_FOLDER, name)
  }

  /** The local file store: which record each path holds. */
  class CampaignStore {
    var files: map<string, LocalCampaign>

    constructor ()
      ensures files == map[]
    {
      files := map[];
    }

    /** `save`: extends the caller's path with the name and extension,
        cleans it in place, and writes the record at the trimmed path. */
    method Save(r: LocalCampaign, path: PathBuffer)
      modifies this, path
      ensures path.text == Cleaned(old(path.text) + r.Terms().name + CAMPAIGN_EXTENSION)
      ensures files == old(files)[Trim(path.text) := r]
    {
      path.PushStr(r.Terms().name);
      path.PushStr(CAMPAIGN_EXTENSION);
      CleanPathName(path);
      files := files[Trim(path.text) := r];
    }

    /** `save_locally`. */
    method SaveLocally(r: LocalCampaign)
      modifies this
      ensures files == old(files)[LocalPath(r) := r]
    {
      var path := new PathBuffer(CAMPAIGNS_FOLDER);
      Save(r, path);
      var name := r.Terms().name;
      assert path.text == Cleaned(CAMPAIGNS_FOLDER + name + CAMPAIGN_EXTENSION);
      LocalSaveAndDeleteAgree(name);
      assert Trim(path.text) == SavePath(CAMPAIGNS_FOLDER, name);
      assert Trim(path.text) == LocalPath(r);
    }

    /** `export`: a backed record exports only its inner campaign. */
    method Export(r: LocalCampaign)
      modifies this
      ensures files == old(files)[ExportPath(r) := Tracked(r.Terms())]
    {
      var path := new PathBuffer(EXPORT_FOLDER);
      Save(Tracked(r.Terms()), path);
    }

    /** `delete`: removes the record's local file; a missing file is not an
        error. */
    method Delete(r: LocalCampaign)
      modifies this
      ensures files == old(files) - {LocalPath(r)}
    {
      var path := new PathBuffer(CAMPAIGNS_FOLDER);
      path.PushStr(r.Terms().name);
      path.PushStr(CAMPAIGN_EXTENSION);
      CleanPathName(path);
      files := files - {path.text};
    }
  }

  /** One entry of the campaigns folder as `get_local_campaigns` meets it:
      an entry the directory iterator fails on, or a file that can or cannot
      be opened, with what it parses as (the JSON decoding is abstract). */
  datatype DirEntry =
    | EntryError
    | Entry(opens: bool, asCampaign: Option<Campaign>, asBacked: Option<BackedCampaign>)

  /** An entry file that could not be opened aborts the listing. */
  datatype ListingError = EntryUnopenable

  /** What one entry contributes: nothing for a failed entry or a file that
      is neither record; a tracked campaign when the file parses as one
      (tried first); otherwise a backed campaign. */
  function EntryRecords(e: DirEntry): (r: Result<seq<LocalCampaign>, ListingError>)
    ensures r.Failure? <==> e.Entry? && !e.opens
    ensures r.Success? ==> |r.value| <= 1
    ensures r.Success? && e.Entry? && e.asCampaign.Some? ==> r.value == [Tracked(e.asCampaign.value)]
    ensures r.Success? && e.Entry? && e.asCampaign.None? && e.asBacked.Some? ==> r.value == [Backed(e.asBacked.value)]
    ensures r.Success? && r.value != [] ==> e.Entry? && (e.asCampaign.Some? || e.asBacked.Some?)
  {
    match e
    case EntryError => Success([])
    case Entry(opens, asCampaign, asBacked) =>
      if !opens then Failure(EntryUnopenable)
      else if asCampaign.Some? then Success([Tracked(asCampaign.value)])
      else if asBacked.Some? then Success([Backed(asBacked.value)])
      else Success([])
  }

  /** The records listed from a sequence of entries, in directory order. */
  function Listing(entries: seq<DirEntry>): (r: Result<seq<LocalCampaign>, ListingError>)
    ensures r.Success? ==> |r.value| <= |entries|
    ensures r.Failure? ==> r.error == EntryUnopenable
  {
    if entries == [] then Success([])
    else
      match Listing(entries[..|entries| - 1])
      case Failure(e) => Failure(e)
      case Success(records) =>
        match EntryRecords(entries[|entries| - 1])
        case Failure(e) => Failure(e)
        case Success(more) => Success(records + more)
  }

  predicate Unopenable(e: DirEntry) {
    e.Entry? && !e.opens
  }

  /** The listing fails exactly when some entry is a file that cannot be
      opened; otherwise it lists at most one record per entry. */
  lemma {:induction false} ListingOutcome(entries: seq<DirEntry>)
    ensures Listing(entries).Failure? <==> exists i :: 0 <= i < |entries| && Unopenable(entries[i])
    ensures Listing(entries).Failure? ==> Listing(entries).error == EntryUnopenable
    ensures Listing(entries).Success? ==> |Listing(entries).value| <= |entries|
  {
    if entries != [] {
      var init := entries[..|entries| - 1];
      ListingOutcome(init);
      if exists i :: 0 <= i < |init| && Unopenable(init[i]) {
        var i :| 0 <= i < |init| && Unopenable(init[i]);
        assert Unopenable(entries[i]);
      }
      if exists i :: 0 <= i < |entries| && Unopenable(entries[i]) {
        var i :| 0 <= i < |entries| && Unopenable(entries[i]);
        if i < |init| {
          assert Unopenable(init[i]);
        }
      }
    }
  }

  /** A file that parses as a campaign is listed as a tracked campaign even
      if it would also parse as a backed one. */
  lemma CampaignParseTakesPrecedence(entries: seq<DirEntry>, c: Campaign, b: BackedCampaign)
    requires Listing(entries).Success?
    ensures Listing(entries + [Entry(true, Some(c), Some(b))]) == Success(Listing(entries).value + [Tracked(c)])
  {
    var all := entries + [Entry(true, Some(c), Some(b))];
    assert all[..|all| - 1] == entries;
  }

  /** `get_local_campaigns`: an unreadable folder lists nothing. */
  method GetLocalCampaigns(folder: Option<seq<DirEntry>>) returns (r: Result<seq<LocalCampaign>, ListingError>)
    ensures folder.None? ==> r == Success([])
    ensures folder.Some? ==> r == Listing(folder.value)
  {
    if folder.None? {
      return Success([]);
    }
    var entries := folder.value;
    var campaigns: seq<LocalCampaign> := [];
    var i := 0;
    while i < |entries|
      invariant 0 <= i <= |entries|
      invariant Listing(entries[..i]) == Success(campaigns)
    {
      assert entries[..i + 1][..i] == entries[..i];
      var e := entries[i];
      assert entries[..i + 1][i] == e;
      if Unopenable(e) {
        ListingOutcome(entries);
        assert Listing(entries).Failure?;
        return Failure(EntryUnopenable);
      }
      if e.Entry? && e.asCampaign.Some? {
        campaigns := campaigns + [Tracked(e.asCampaign.value)];
      } else if e.Entry? && e.asBacked.Some? {
        campaigns := campaigns + [Backed(e.asBacked.value)];
      } else {
        assert campaigns + [] == campaigns;
      }
      i := i + 1;
    }
    assert entries[..|entries|] == entries;
    r := Success(campaigns);
  }
}
