/**
 * Application-scoped artifact storage with envelope encryption. Encryption is a
 * symbolic term: a sealed message opens exactly under the key, nonce and associated
 * data it was sealed with.
 */
module Workspace {
  import opened Collections
  import opened Wrappers
  import opened MatchingSchema
  import opened Facts
  import opened WorkflowSchema
  import opened AgentSchema

  datatype ArtifactName = RequestArtifact | WorkerArtifact(worker: WorkerName) | MetricArtifact(metric: Metric)

  datatype File = DocumentFile(app: AppId, filename: string) | ArtifactFile(app: AppId, name: ArtifactName)

  // ---- paths ----

  function WorkerText(w: WorkerName): string {
    match w
    case DocumentProcessing => "document_processing"
    case FinancialAnalysis => "financial_analysis"
    case Eligibility => "eligibility"
    case PrecedentRetrieval => "precedent_retrieval"
    case Suggestion => "suggestion"
    case Guardrails => "guardrails"
    case HumanReview => "human_review"
  }

  function MetricText(m: Metric): string {
    match m
    case RevenueMetric => "annual_revenue_crore"
    case MarginMetric => "ebitda_margin_pct"
    case DscrMetric => "dscr"
    case PatMetric => "pat_crore"
    case EquityMetric => "debt_to_equity"
    case LeverageMetric => "debt_to_ebitda"
    case CollateralMetric => "collateral_cover"
    case YearsMetric => "years_operating"
    case HeadcountMetric => "employee_count"
    case BorrowerMetric => "borrower_name"
    case IndustryMetric => "industry"
    case SubIndustryMetric => "sub_industry"
    case RegionMetric => "region"
  }

  function NameText(n: ArtifactName): string {
    match n
    case RequestArtifact => "request"
    case WorkerArtifact(w) => WorkerText(w)
    case MetricArtifact(m) => "financial/" + MetricText(m)
  }

  const DOCUMENT_SUFFIX := ".enc.json"
  const ARTIFACT_SUFFIX := ".json"

  /** Path of an encrypted file below its application folder. */
  function PathOf(file: File): string {
    match file
    case DocumentFile(_, filename) => filename + DOCUMENT_SUFFIX
    case ArtifactFile(_, name) => NameText(name) + ARTIFACT_SUFFIX
  }

  /** What a file's content is bound to. */
  datatype Associated = Associated(kind: string, app: AppId, name: string)

  function AssociatedOf(file: File): Associated {
    match file
    case DocumentFile(app, filename) => Associated("document", app, filename)
    case ArtifactFile(app, name) => Associated("artifact", app, NameText(name))
  }

  function WithoutSuffix(path: string, suffix: string): string
    requires |suffix| <= |path|
  {
    path[..|path| - |suffix|]
  }

  /** Key rotation has only the path and rebuilds the associated data from it. */
  function AssociatedFromPath(file: File): Associated {
    match file
    case DocumentFile(app, _) => Associated("document", app, WithoutSuffix(PathOf(file), DOCUMENT_SUFFIX))
    case ArtifactFile(app, _) => Associated("artifact", app, WithoutSuffix(PathOf(file), ARTIFACT_SUFFIX))
  }

  /** The name rebuilt from a path is the name the path was built from. */
  lemma PathGivesName(file: File)
    ensures AssociatedFromPath(file) == AssociatedOf(file)
  {
    match file
    case DocumentFile(_, filename) =>
      assert WithoutSuffix(filename + DOCUMENT_SUFFIX, DOCUMENT_SUFFIX) == filename;
    case ArtifactFile(_, name) =>
      assert WithoutSuffix(NameText(name) + ARTIFACT_SUFFIX, ARTIFACT_SUFFIX) == NameText(name);
  }

  // ---- envelopes ----

  type Key = nat
  type Nonce = nat
  type Content = nat

  datatype Message = Data(content: Content) | WrappedKey(dek: Key)

  datatype Sealed = Sealed(key: Key, nonce: Nonce, associated: Associated, message: Message)

  function Open(key: Key, nonce: Nonce, associated: Associated, box: Sealed): Option<Message> {
    if box.key == key && box.nonce == nonce && box.associated == associated then Some(box.message) else None
  }

  datatype Stored =
    | Plaintext(content: Content)
    | Envelope(keyVersion: string, dataNonce: Nonce, keyNonce: Nonce, ciphertext: Sealed, wrapped: Sealed)

  /** Fresh random values drawn while one file is written. */
  datatype Randomness = Randomness(dek: Key, dataNonce: Nonce, keyNonce: Nonce)

  function Wrap(master: Key, version: string, content: Content, associated: Associated, r: Randomness): Stored {
    Envelope(version, r.dataNonce, r.keyNonce,
             Sealed(r.dek, r.dataNonce, associated, Data(content)),
             Sealed(master, r.keyNonce, associated, WrappedKey(r.dek)))
  }

  /** The data key, if the envelope is one and its wrapped key opens under the master key. */
  function Unwrap(master: Key, associated: Associated, stored: Stored): Option<Key> {
    if stored.Plaintext? then None
    else
      match Open(master, stored.keyNonce, associated, stored.wrapped)
      case Some(WrappedKey(dek)) => Some(dek)
      case _ => None
  }

  /** Reading: the raw content without a master key, the opened envelope with one. */
  function ReadStored(master: Option<Key>, associated: Associated, stored: Stored): Option<Content> {
    if master.None? then if stored.Plaintext? then Some(stored.content) else None
    else
      var dek := Unwrap(master.value, associated, stored);
      if dek.None? then None
      else
        match Open(dek.value, stored.dataNonce, associated, stored.ciphertext)
        case Some(Data(content)) => Some(content)
        case _ => None
  }

  function Rewrapped(
    master: Key, version: string, associated: Associated, stored: Stored, dek: Key, keyNonce: Nonce): Stored
    requires stored.Envelope?
  {
    stored.(keyVersion := version, keyNonce := keyNonce,
      wrapped := Sealed(master, keyNonce, associated, WrappedKey(dek)))
  }

  /** A rewrapped file reads the same under the new key, with its ciphertext untouched. */
  lemma RewrapKeepsContent(
    oldKey: Key, newKey: Key, version: string, associated: Associated, stored: Stored, keyNonce: Nonce)
    requires Unwrap(oldKey, associated, stored).Some?
    ensures var again := Rewrapped(newKey, version, associated, stored, Unwrap(oldKey, associated, stored).value,
      keyNonce);
            && ReadStored(Some(newKey), associated, again) == ReadStored(Some(oldKey), associated, stored)
            && again.ciphertext == stored.ciphertext && again.dataNonce == stored.dataNonce
            && (oldKey != newKey ==> ReadStored(Some(oldKey), associated, again) == None)
  {
  }

  // ---- files as a reader sees them ----

  function ReadFile(files: map<File, Stored>, master: Option<Key>, file: File): Option<Content> {
    if file in files then ReadStored(master, AssociatedOf(file), files[file]) else None
  }

  function Write(
    files: map<File, Stored>, master: Option<Key>, version: string, file: File, content: Content,
    r: Randomness): map<File, Stored>
  {
    files[file := if master.None? then Plaintext(content)
      else Wrap(master.value, version, content, AssociatedOf(file), r)]
  }

  /** Reading after a write gives back the written value, and no other file is affected. */
  lemma ReadAfterWrite(
    files: map<File, Stored>, master: Option<Key>, version: string, file: File, content: Content, r: Randomness,
    other: File)
    ensures ReadFile(Write(files, master, version, file, content, r), master, file) == Some(content)
    ensures other != file ==>
        ReadFile(Write(files, master, version, file, content, r), master, other) == ReadFile(files, master, other)
  {
  }

  /** Rewrapping every file of the list, in order; None when one of them does not unwrap. */
  function RewrapList(
    files: map<File, Stored>, oldKey: Key, newKey: Key, version: string, list: seq<File>,
    nonces: File -> Nonce): (map<File, Stored>, bool)
  {
    if list == [] then (files, true)
    else
      var (sofar, ok) := RewrapList(files, oldKey, newKey, version, list[..|list| - 1], nonces);
      var file := list[|list| - 1];
      if !ok || file !in sofar then (sofar, false)
      else
        var dek := Unwrap(oldKey, AssociatedFromPath(file), sofar[file]);
        if dek.None? then (sofar, false)
        else (sofar[file := Rewrapped(newKey, version, AssociatedFromPath(file), sofar[file], dek.value,
          nonces(file))], true)
  }

  predicate Unwraps(files: map<File, Stored>, master: Key, file: File) {
    file in files && Unwrap(master, AssociatedOf(file), files[file]).Some?
  }

  /** A visited file opens under the new key, an unvisited one is as it was. */
  ghost predicate Rotated(
    before: map<File, Stored>, after: map<File, Stored>, oldKey: Key, newKey: Key, visited: seq<File>, file: File)
    requires file in before && file in after
  {
    && (file !in visited ==> after[file] == before[file])
    && (file in visited ==>
          && ReadFile(after, Some(newKey), file) == ReadFile(before, Some(oldKey), file)
          && (oldKey != newKey ==> ReadFile(after, Some(oldKey), file) == None)
          && after[file].Envelope? && before[file].Envelope?
          && after[file].ciphertext == before[file].ciphertext && after[file].dataNonce == before[file].dataNonce)
  }

  /** The two kinds of files a rotation is about: every one unwraps, and none is listed twice. */
  predicate Rotatable(files: map<File, Stored>, oldKey: Key, list: seq<File>) {
    && Distinct(list)
    && forall i :: 0 <= i < |list| ==> Unwraps(files, oldKey, list[i])
  }

  lemma RotatableStart(files: map<File, Stored>, oldKey: Key, list: seq<File>)
    requires Rotatable(files, oldKey, list) && list != []
    ensures Rotatable(files, oldKey, list[..|list| - 1]) && list[|list| - 1] !in list[..|list| - 1]
    ensures Unwraps(files, oldKey, list[|list| - 1])
  {
    DistinctPrefix(list, |list| - 1);
  }

  /** One more file that unwraps. */
  lemma RewrapNext(
    files: map<File, Stored>, oldKey: Key, newKey: Key, version: string, list: seq<File>, nonces: File -> Nonce)
    requires list != [] && RewrapList(files, oldKey, newKey, version, list[..|list| - 1], nonces).1
    requires Unwraps(RewrapList(files, oldKey, newKey, version, list[..|list| - 1], nonces).0, oldKey, list[|list| - 1])
    ensures var sofar, last := RewrapList(files, oldKey, newKey, version, list[..|list| - 1], nonces).0,
        list[|list| - 1];
            var dek := Unwrap(oldKey, AssociatedOf(last), sofar[last]).value;
            RewrapList(files, oldKey, newKey, version, list, nonces)
            == (sofar[last := Rewrapped(newKey, version, AssociatedOf(last), sofar[last], dek, nonces(last))], true)
  {
    PathGivesName(list[|list| - 1]);
  }

  /** Every file is rotated or untouched, as it was visited or not. */
  ghost predicate AllRotated(
    before: map<File, Stored>, after: map<File, Stored>, oldKey: Key, newKey: Key, visited: seq<File>)
  {
    after.Keys == before.Keys && forall file :: file in before ==> Rotated(before, after, oldKey, newKey, visited, file)
  }

  lemma RotateOne(
    files: map<File, Stored>, sofar: map<File, Stored>, after: map<File, Stored>, oldKey: Key, newKey: Key,
    version: string,
    visited: seq<File>, keyNonce: Nonce)
    requires visited != [] && AllRotated(files, sofar, oldKey, newKey, visited[..|visited| - 1])
    requires var last := visited[|visited| - 1];
             && last !in visited[..|visited| - 1] && Unwraps(files, oldKey, last) && sofar[last] == files[last]
             && var dek := Unwrap(oldKey, AssociatedOf(last), sofar[last]).value;
                after == sofar[last := Rewrapped(newKey, version, AssociatedOf(last), sofar[last], dek, keyNonce)]
    ensures AllRotated(files, after, oldKey, newKey, visited)
  {
    var done, last := visited[..|visited| - 1], visited[|visited| - 1];
    forall file | file in files
      ensures Rotated(files, after, oldKey, newKey, visited, file)
    {
      assert Rotated(files, sofar, oldKey, newKey, done, file);
      assert file in visited <==> file in done || file == last;
      RewrapKeepsContent(oldKey, newKey, version, AssociatedOf(last), files[last], keyNonce);
    }
  }

  lemma {:induction false} RotationGoesOn(
    files: map<File, Stored>, oldKey: Key, newKey: Key, version: string, list: seq<File>, nonces: File -> Nonce)
    requires Rotatable(files, oldKey, list)
    ensures RewrapList(files, oldKey, newKey, version, list, nonces).1
    ensures AllRotated(files, RewrapList(files, oldKey, newKey, version, list, nonces).0, oldKey, newKey, list)
  {
    if list != [] {
      var done, last := list[..|list| - 1], list[|list| - 1];
      RotatableStart(files, oldKey, list);
      RotationGoesOn(files, oldKey, newKey, version, done, nonces);
      var sofar := RewrapList(files, oldKey, newKey, version, done, nonces).0;
      UnvisitedUnwraps(files, sofar, oldKey, newKey, done, last);
      RewrapNext(files, oldKey, newKey, version, list, nonces);
      RotateOne(files, sofar, RewrapList(files, oldKey, newKey, version, list, nonces).0, oldKey, newKey, version,
        list, nonces(last));
    }
  }

  lemma UnvisitedUnwraps(
    files: map<File, Stored>, sofar: map<File, Stored>, oldKey: Key, newKey: Key, done: seq<File>, last: File)
    requires AllRotated(files, sofar, oldKey, newKey, done) && last !in done && Unwraps(files, oldKey, last)
    ensures last in sofar && sofar[last] == files[last] && Unwraps(sofar, oldKey, last)
  {
    assert Rotated(files, sofar, oldKey, newKey, done, last);
  }

  /**
   * At any point of a rotation the visited files read the same under the new key, with
   * their ciphertext unchanged, and the unvisited files are untouched.
   */
  lemma RotationInProgress(
    files: map<File, Stored>, oldKey: Key, newKey: Key, version: string, list: seq<File>, nonces: File -> Nonce)
    requires Rotatable(files, oldKey, list)
    ensures RewrapList(files, oldKey, newKey, version, list, nonces).1
    ensures RewrapList(files, oldKey, newKey, version, list, nonces).0.Keys == files.Keys
    ensures forall file :: file in files ==>
              Rotated(files, RewrapList(files, oldKey, newKey, version, list, nonces).0, oldKey, newKey, list, file)
  {
    RotationGoesOn(files, oldKey, newKey, version, list, nonces);
  }

  // ---- invalidation ----

  /** Names removed when a restart at w invalidates what came after. */
  predicate Invalidated(w: WorkerName, n: ArtifactName) {
    match n
    case RequestArtifact => false
    case WorkerArtifact(v) => Place(w) <= Place(v)
    case MetricArtifact(_) => Place(w) <= Place(FinancialAnalysis)
  }

  function Survivors(files: map<File, Stored>, app: AppId, w: WorkerName): map<File, Stored> {
    map file | file in files && !(file.ArtifactFile? && file.app == app && Invalidated(w, file.name)) :: files[file]
  }

  class ApplicationWorkspace {
    var files: map<File, Stored>
    var masterKey: Option<Key>
    var keyVersion: string

    constructor (masterKey: Option<Key>, keyVersion: string)
      ensures files == map[] && this.masterKey == masterKey && this.keyVersion == keyVersion
    {
      this.files := map[];
      this.masterKey := masterKey;
      this.keyVersion := keyVersion;
    }

    method Exists(app: AppId, name: ArtifactName) returns (present: bool)
      ensures present <==> ArtifactFile(app, name) in files
    {
      present := ArtifactFile(app, name) in files;
    }

    method Save(app: AppId, name: ArtifactName, value: Content, r: Randomness)
      modifies this`files
      ensures files == Write(old(files), masterKey, keyVersion, ArtifactFile(app, name), value, r)
      ensures ReadFile(files, masterKey, ArtifactFile(app, name)) == Some(value)
      ensures forall f :: f != ArtifactFile(app, name) ==>
          ReadFile(files, masterKey, f) == ReadFile(old(files), masterKey, f)
    {
      var file := ArtifactFile(app, name);
      if masterKey.None? {
        files := files[file := Plaintext(value)];
      } else {
        files := files[file := Wrap(masterKey.value, keyVersion, value, AssociatedOf(file), r)];
      }
    }

    method Load(app: AppId, name: ArtifactName) returns (value: Option<Content>)
      ensures value == ReadFile(files, masterKey, ArtifactFile(app, name))
    {
      var file := ArtifactFile(app, name);
      if file !in files {
        return None;
      }
      value := ReadStored(masterKey, AssociatedOf(file), files[file]);
    }

    /** Removes the artifacts of the restarted worker and everything after it. */
    method InvalidateFrom(app: AppId, w: WorkerName) returns (refused: bool)
      modifies this`files
      ensures refused <==> w == HumanReview
      ensures files == if refused then old(files) else Survivors(old(files), app, w)
    {
      if w == HumanReview {
        return true;
      }
      refused := false;
      UnlinkWorkers(app, w);
      if Place(w) <= Place(FinancialAnalysis) {
        UnlinkMetrics(app);
      }
    }

    method UnlinkWorkers(app: AppId, w: WorkerName)
      modifies this`files
      ensures forall file :: file in files <==>
                file in old(files) && !(file.ArtifactFile? && file.app == app && file.name.WorkerArtifact?
                  && Invalidated(w, file.name))
      ensures forall file :: file in files ==> files[file] == old(files)[file]
    {
      FixedPlaces(w);
      var i := Place(w);
      while i < |FIXED_ORDER|
        invariant Place(w) <= i <= |FIXED_ORDER|
        invariant forall file :: file in files <==> file in old(files) && !UnlinkedWorker(app, Place(w), i, file)
        invariant forall file :: file in files ==> files[file] == old(files)[file]
      {
        files := files - {ArtifactFile(app, WorkerArtifact(FIXED_ORDER[i]))};
        i := i + 1;
      }
      forall file: File
        ensures UnlinkedWorker(app, Place(w), |FIXED_ORDER|, file)
           <==> file.ArtifactFile? && file.app == app && file.name.WorkerArtifact? && Invalidated(w, file.name)
      {
        if file.ArtifactFile? && file.name.WorkerArtifact? {
          FixedPlaces(file.name.worker);
        }
      }
    }

    method UnlinkMetrics(app: AppId)
      modifies this`files
      ensures forall file ::
                file in files <==>
                file in old(files) && !(file.ArtifactFile? && file.app == app && file.name.MetricArtifact?)
      ensures forall file :: file in files ==> files[file] == old(files)[file]
    {
      var i := 0;
      while i < |EXTRACTED_FACTS|
        invariant 0 <= i <= |EXTRACTED_FACTS|
        invariant forall file :: file in files <==> file in old(files) && !UnlinkedMetric(app, i, file)
        invariant forall file :: file in files ==> files[file] == old(files)[file]
      {
        files := files - {ArtifactFile(app, MetricArtifact(EXTRACTED_FACTS[i]))};
        i := i + 1;
      }
      forall file: File
        ensures UnlinkedMetric(app, |EXTRACTED_FACTS|, file)
            <==> file.ArtifactFile? && file.app == app && file.name.MetricArtifact?
      {
        if file.ArtifactFile? && file.name.MetricArtifact? {
          MetricPlaces(file.name.metric);
        }
      }
    }

    /**
     * Rewraps the listed files one by one, then switches the workspace to the new key.
     * A file that does not unwrap stops it, with the files before it already rewrapped
     * and the workspace still on the old key.
     */
    method RewrapAll(
      newKey: Key, newVersion: string, list: seq<File>, nonces: File -> Nonce) returns (changed: Option<nat>)
      modifies this
      ensures old(masterKey).None? ==> changed == None && files == old(files) && masterKey == None
      ensures old(masterKey).Some? ==>
                var (rewrapped, ok) := RewrapList(old(files), old(masterKey).value, newKey, newVersion, list, nonces);
                && files == rewrapped
                && (ok ==> changed == Some(|list|) && masterKey == Some(newKey) && keyVersion == newVersion)
                && (!ok ==> changed == None && masterKey == old(masterKey) && keyVersion == old(keyVersion))
    {
      if masterKey.None? {
        return None;
      }
      var oldKey := masterKey.value;
      var i := 0;
      while i < |list|
        invariant 0 <= i <= |list|
        invariant masterKey == old(masterKey) && keyVersion == old(keyVersion)
        invariant RewrapList(old(files), oldKey, newKey, newVersion, list[..i], nonces) == (files, true)
      {
        var file := list[i];
        assert list[..i + 1][..i] == list[..i];
        if file !in files {
          StopsForGood(old(files), oldKey, newKey, newVersion, list, i + 1, nonces);
          return None;
        }
        var dek := Unwrap(oldKey, AssociatedFromPath(file), files[file]);
        if dek.None? {
          StopsForGood(old(files), oldKey, newKey, newVersion, list, i + 1, nonces);
          return None;
        }
        files := files[file := Rewrapped(newKey, newVersion, AssociatedFromPath(file), files[file], dek.value,
          nonces(file))];
        i := i + 1;
      }
      assert list[..|list|] == list;
      masterKey := Some(newKey);
      keyVersion := newVersion;
      return Some(|list|);
    }
  }

  predicate UnlinkedWorker(app: AppId, from: nat, to: nat, file: File)
    requires to <= |FIXED_ORDER|
  {
    exists j :: from <= j < to && file == ArtifactFile(app, WorkerArtifact(FIXED_ORDER[j]))
  }

  predicate UnlinkedMetric(app: AppId, to: nat, file: File)
    requires to <= |EXTRACTED_FACTS|
  {
    exists j :: 0 <= j < to && file == ArtifactFile(app, MetricArtifact(EXTRACTED_FACTS[j]))
  }

  lemma {:induction false} StopsForGood(
    files: map<File, Stored>, oldKey: Key, newKey: Key, version: string, list: seq<File>, n: nat, nonces: File -> Nonce)
    requires n <= |list| && !RewrapList(files, oldKey, newKey, version, list[..n], nonces).1
    ensures RewrapList(files, oldKey, newKey, version, list, nonces)
        == RewrapList(files, oldKey, newKey, version, list[..n], nonces)
    decreases |list| - n
  {
    if n == |list| {
      assert list[..n] == list;
    } else {
      assert list[..n + 1][..n] == list[..n];
      StopsForGood(files, oldKey, newKey, version, list, n + 1, nonces);
    }
  }

  /**
   * A complete rotation keeps every listed file readable with the same content, and
   * leaves no listed file under the old key.
   */
  lemma RotationKeepsEveryFileReadable(
    files: map<File, Stored>, oldKey: Key, newKey: Key, version: string, list: seq<File>, nonces: File -> Nonce,
    file: File)
    requires Rotatable(files, oldKey, list) && file in list
    ensures var (after, ok) := RewrapList(files, oldKey, newKey, version, list, nonces);
            && ok && file in files && file in after
            && ReadFile(after, Some(newKey), file) == ReadFile(files, Some(oldKey), file)
            && (oldKey != newKey ==> ReadFile(after, Some(oldKey), file) == None)
  {
    RotationInProgress(files, oldKey, newKey, version, list, nonces);
    var i :| 0 <= i < |list| && list[i] == file;
    assert Unwraps(files, oldKey, list[i]);
    assert Rotated(files, RewrapList(files, oldKey, newKey, version, list, nonces).0, oldKey, newKey, list, file);
  }

  // ---- a rotation that stops ----

  /** How many files a rotation visits before it stops: the length of the list if every file unwraps. */
  function Stop(files: map<File, Stored>, oldKey: Key, list: seq<File>): (n: nat)
    ensures n <= |list| && (forall i :: 0 <= i < n ==> Unwraps(files, oldKey, list[i]))
    ensures n < |list| ==> !Unwraps(files, oldKey, list[n])
  {
    if list == [] || !Unwraps(files, oldKey, list[0]) then 0
    else
      var n := Stop(files, oldKey, list[1..]);
      assert forall i :: 1 <= i <= n ==> list[i] == list[1..][i - 1];
      1 + n
  }

  lemma NextIsUntouched(
    files: map<File, Stored>, oldKey: Key, newKey: Key, version: string, list: seq<File>, nonces: File -> Nonce, n: nat)
    requires Distinct(list) && n < |list| && Rotatable(files, oldKey, list[..n])
    ensures var (sofar, ok) := RewrapList(files, oldKey, newKey, version, list[..n], nonces);
            ok && sofar.Keys == files.Keys && (list[n] in files ==> sofar[list[n]] == files[list[n]])
  {
    var file, done := list[n], list[..n];
    RotationInProgress(files, oldKey, newKey, version, done, nonces);
    DistinctPrefix(list, n);
    if file in files {
      assert Rotated(files, RewrapList(files, oldKey, newKey, version, done, nonces).0, oldKey, newKey, done, file);
    }
  }

  lemma StopsAt(
    files: map<File, Stored>, oldKey: Key, newKey: Key, version: string, done: seq<File>, file: File,
    nonces: File -> Nonce,
    sofar: map<File, Stored>)
    requires RewrapList(files, oldKey, newKey, version, done, nonces) == (sofar, true) && !Unwraps(sofar, oldKey, file)
    ensures RewrapList(files, oldKey, newKey, version, done + [file], nonces) == (sofar, false)
  {
    assert (done + [file])[..|done|] == done;
    PathGivesName(file);
  }

  /**
   * A rotation over any list without repeats succeeds exactly when every file unwraps,
   * and otherwise stops at the first that does not: the files before it are rewrapped,
   * the others untouched.
   */
  lemma RotationStopsExactly(
    files: map<File, Stored>, oldKey: Key, newKey: Key, version: string, list: seq<File>, nonces: File -> Nonce)
    requires Distinct(list)
    ensures var n := Stop(files, oldKey, list);
            && Rotatable(files, oldKey, list[..n])
            && RewrapList(files, oldKey, newKey, version, list, nonces).1 == (n == |list|)
            && RewrapList(files, oldKey, newKey, version, list, nonces).0
                 == RewrapList(files, oldKey, newKey, version, list[..n], nonces).0
  {
    var n := Stop(files, oldKey, list);
    DistinctPrefix(list, n);
    RotationInProgress(files, oldKey, newKey, version, list[..n], nonces);
    if n < |list| {
      NextIsUntouched(files, oldKey, newKey, version, list, nonces, n);
      StopsAt(files, oldKey, newKey, version, list[..n], list[n], nonces,
        RewrapList(files, oldKey, newKey, version, list[..n], nonces).0);
      assert list[..n] + [list[n]] == list[..n + 1];
      StopsForGood(files, oldKey, newKey, version, list, n + 1, nonces);
    } else {
      assert list[..n] == list;
    }
  }

  /**
   * After a failed rotation to another key the workspace still holds the old one, under
   * which it can no longer read any file the rotation visited; under the new key, which
   * it has dropped, each of them reads as before. The other files are untouched.
   */
  lemma FailedRotationLosesVisitedFiles(
    files: map<File, Stored>, oldKey: Key, newKey: Key, version: string, list: seq<File>, nonces: File -> Nonce,
    file: File)
    requires Distinct(list) && oldKey != newKey && !RewrapList(files, oldKey, newKey, version, list, nonces).1
    requires file in files
    ensures var after, n := RewrapList(files, oldKey, newKey, version, list, nonces).0, Stop(files, oldKey, list);
            && n < |list| && !Unwraps(files, oldKey, list[n]) && file in after
            && (file in list[..n] ==>
                  && ReadFile(after, Some(oldKey), file) == None
                  && ReadFile(after, Some(newKey), file) == ReadFile(files, Some(oldKey), file))
            && (file !in list[..n] ==> after[file] == files[file])
  {
    var n := Stop(files, oldKey, list);
    RotationStopsExactly(files, oldKey, newKey, version, list, nonces);
    RotationInProgress(files, oldKey, newKey, version, list[..n], nonces);
    assert Rotated(files, RewrapList(files, oldKey, newKey, version, list[..n], nonces).0, oldKey, newKey,
      list[..n], file);
  }
}
