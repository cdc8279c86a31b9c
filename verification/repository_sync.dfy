/** One application kept in step with its source repository: poller.go's SyncRepositoryNow without a deployment queue,
    with the store operations it calls. */
module RepositorySync {
  import opened Text
  import opened ImageReference

  datatype App = App(name: string, repositoryServiceId: string, servicePort: int, replicas: int, image: string)

  datatype Service = Service(serviceId: string, image: string, port: int, replicas: int)

  /** What the repository answers: its descriptor, a file with just an image tag, or nothing readable. */
  datatype Source = Descriptor(services: seq<Service>) | TagFile(imageTag: string) | Unreadable

  datatype Desired = Desired(serviceId: string, image: string, port: int, replicas: int)

  datatype Resolution = Failed | NothingWanted | Wanted(desired: Desired)

  datatype Patch = Patch(servicePort: Option<int>, replicas: Option<int>, serviceId: Option<string>, image: Option<string>)

  /** What the calls outside this model answer: policies and the image registry may refuse, the store may fail. */
  datatype Outcomes = Outcomes(patchAllowed: bool, rereadSucceeds: bool, deployAllowed: bool)

  datatype Response = Response(settingsApplied: bool, deploymentTriggered: bool, failed: bool)

  const QUIET := Response(false, false, false)

  // ---------------------------------------------------------------- the descriptor

  predicate IsSlugChar(c: char) {
    'a' <= c <= 'z' || '0' <= c <= '9'
  }

  predicate IsSlug(s: string) {
    && s != "" && IsSlugChar(s[0]) && IsSlugChar(s[|s| - 1])
    && forall c :: c in s ==> IsSlugChar(c) || c == '-'
  }

  lemma SlugCodes(s: string)
    ensures IsSlug(s) <==>
              && |s| > 0 && s[0] as int != 45 && s[|s| - 1] as int != 45
              && forall k :: 0 <= k < |s| ==> 97 <= s[k] as int <= 122 || 48 <= s[k] as int <= 57 || s[k] as int == 45
  {
    assert forall k :: 0 <= k < |s| ==> s[k] in s;
  }

  predicate IsValidService(service: Service) {
    && IsSlug(TrimSpace(service.serviceId)) && TrimSpace(service.image) != ""
    && 1 <= service.port <= 65535 && service.replicas >= 1
  }

  predicate IsValidDescriptor(services: seq<Service>) {
    services != [] && forall k :: 0 <= k < |services| ==> IsValidService(services[k])
  }

  function FirstNamed(services: seq<Service>, id: string): (found: Option<Service>)
    ensures found.Some? ==> found.value in services && found.value.serviceId == id
    ensures found.None? ==> forall k :: 0 <= k < |services| ==> services[k].serviceId != id
  {
    if services == [] then None
    else if services[0].serviceId == id then Some(services[0])
    else FirstNamed(services[1..], id)
  }

  function TargetServiceId(app: App): string {
    var id := TrimSpace(app.repositoryServiceId);
    if id == "" then TrimSpace(app.name) else id
  }

  function ResolveService(services: seq<Service>, app: App): Option<Service> {
    var target := TargetServiceId(app);
    var named := if target == "" then None else FirstNamed(services, target);
    if named.Some? then named
    else if |services| == 1 then Some(services[0])
    else None
  }

  function ResolveDesiredState(source: Source, app: App): Resolution {
    match source
    case Unreadable => Failed
    case Descriptor(services) =>
      if !IsValidDescriptor(services) then Failed
      else (
        match ResolveService(services, app)
        case None => Failed
        case Some(s) => Wanted(Desired(s.serviceId, s.image, s.port, s.replicas))
      )
    case TagFile(tag) =>
      if tag == "" then NothingWanted else Wanted(Desired("", ReplaceImageTag(app.image, tag), 0, 0))
  }

  // ---------------------------------------------------------------- the store

  /** An application as the store loads it. */
  function Loaded(record: App): App {
    if record.replicas <= 0 then record.(replicas := 1) else record
  }

  function Applied(record: App, patch: Patch): App {
    App(record.name,
        if patch.serviceId.Some? then patch.serviceId.value else record.repositoryServiceId,
        if patch.servicePort.Some? then patch.servicePort.value else record.servicePort,
        if patch.replicas.Some? then patch.replicas.value else record.replicas,
        if patch.image.Some? then TrimSpace(patch.image.value) else record.image)
  }

  // ---------------------------------------------------------------- the specification of one sync

  function PatchFor(app: App, desired: Desired): Patch {
    Patch(if desired.port > 0 && desired.port != app.servicePort then Some(desired.port) else None,
          if desired.replicas > 0 && desired.replicas != app.replicas then Some(desired.replicas) else None,
          if TrimSpace(desired.serviceId) != "" && desired.serviceId != app.repositoryServiceId then Some(desired.serviceId) else None,
          if desired.image != "" && ImageRepositoryRef(desired.image) != ImageRepositoryRef(app.image) then Some(desired.image) else None)
  }

  const NO_CHANGE := Patch(None, None, None, None)

  /** A new tag to deploy, if there is one. */
  function TagToDeploy(current: App, desired: Desired): Option<string> {
    var tag := ExtractImageTag(desired.image);
    if tag == "" || tag == ExtractImageTag(current.image) then None else Some(tag)
  }

  function Deployed(record: App, current: App, desired: Desired, settingsApplied: bool, o: Outcomes): (App, Response) {
    match TagToDeploy(current, desired)
    case None => (record, Response(settingsApplied, false, false))
    case Some(tag) =>
      if !o.deployAllowed || TrimSpace(tag) == "" then (record, Response(settingsApplied, false, true))
      else (Loaded(record).(image := ReplaceImageTag(record.image, tag)), Response(settingsApplied, true, false))
  }

  /** The part of a sync that follows the choice of a desired state. */
  function SyncedTo(record: App, app: App, desired: Desired, o: Outcomes): (App, Response) {
    var patch := PatchFor(app, desired);
    if patch == NO_CHANGE then Deployed(record, app, desired, false, o)
    else if !o.patchAllowed then (record, Response(false, false, true))
    else
      var patched := Applied(Loaded(record), patch);
      if !o.rereadSucceeds then (patched, Response(false, false, true))
      else Deployed(patched, Loaded(patched), desired, true, o)
  }

  /** What a sync that was handed `app` does to the stored record. */
  function Synced(record: App, app: App, source: Source, o: Outcomes): (App, Response) {
    match ResolveDesiredState(source, app)
    case Failed => (record, Response(false, false, true))
    case NothingWanted => (record, QUIET)
    case Wanted(desired) => SyncedTo(record, app, desired, o)
  }

  /** A sync of the application as the store has it. */
  function Sync(record: App, source: Source, o: Outcomes): (App, Response) {
    Synced(record, Loaded(record), source, o)
  }

  // ---------------------------------------------------------------- the poller

  class AutoUpdatePoller {
    var record: App

    constructor (initial: App)
      ensures record == initial
    {
      record := initial;
    }

    method PatchApplication(patch: Patch)
      modifies this
      ensures record == Applied(Loaded(old(record)), patch)
    {
      var next := Loaded(record);
      if patch.image.Some? { next := next.(image := TrimSpace(patch.image.value)); }
      if patch.servicePort.Some? { next := next.(servicePort := patch.servicePort.value); }
      if patch.replicas.Some? { next := next.(replicas := patch.replicas.value); }
      if patch.serviceId.Some? { next := next.(repositoryServiceId := patch.serviceId.value); }
      record := next;
    }

    method CreateDeployment(tag: string, o: Outcomes) returns (failed: bool)
      modifies this
      ensures failed <==> !o.deployAllowed || TrimSpace(tag) == ""
      ensures record == if failed then old(record) else Loaded(old(record)).(image := ReplaceImageTag(old(record).image, tag))
    {
      if TrimSpace(tag) == "" || !o.deployAllowed {
        return true;
      }
      record := Loaded(record).(image := ReplaceImageTag(record.image, tag));
      return false;
    }

    /** Brings the settings in line; the application to continue with is the stored one if anything changed. */
    method ReconcileRepositoryState(app: App, desired: Desired, o: Outcomes) returns (updated: App, changed: bool, failed: bool)
      modifies this
      ensures var patch := PatchFor(app, desired);
              && (failed <==> patch != NO_CHANGE && !(o.patchAllowed && o.rereadSucceeds))
              && (changed <==> patch != NO_CHANGE && !failed)
              && record == (if patch == NO_CHANGE || !o.patchAllowed then old(record) else Applied(Loaded(old(record)), patch))
              && (!failed ==> updated == if changed then Loaded(record) else app)
    {
      var patch := NO_CHANGE;
      changed, failed, updated := false, false, app;
      if desired.port > 0 && desired.port != app.servicePort {
        patch, changed := patch.(servicePort := Some(desired.port)), true;
      }
      if desired.replicas > 0 && desired.replicas != app.replicas {
        patch, changed := patch.(replicas := Some(desired.replicas)), true;
      }
      if TrimSpace(desired.serviceId) != "" && desired.serviceId != app.repositoryServiceId {
        patch, changed := patch.(serviceId := Some(desired.serviceId)), true;
      }
      if desired.image != "" && ImageRepositoryRef(desired.image) != ImageRepositoryRef(app.image) {
        patch, changed := patch.(image := Some(desired.image)), true;
      }
      if !changed {
        return;
      }
      if !o.patchAllowed {
        return app, false, true;
      }
      PatchApplication(patch);
      if !o.rereadSucceeds {
        return app, false, true;
      }
      updated := Loaded(record);
    }

    method SyncRepositoryNow(app: App, source: Source, o: Outcomes) returns (response: Response)
      modifies this
      ensures (record, response) == Synced(old(record), app, source, o)
    {
      hide TrimSpace, ImageRepositoryRef, ExtractImageTag, ReplaceImageTag;
      response := QUIET;
      var resolution := ResolveDesiredState(source, app);
      if resolution.Failed? {
        return response.(failed := true);
      }
      if resolution.NothingWanted? {
        return;
      }
      var desired := resolution.desired;
      var updated, changed, failed := ReconcileRepositoryState(app, desired, o);
      if failed {
        return response.(failed := true);
      }
      response := response.(settingsApplied := changed);
      var currentTag, desiredTag := ExtractImageTag(updated.image), ExtractImageTag(desired.image);
      if desiredTag == "" || desiredTag == currentTag {
        return;
      }
      failed := CreateDeployment(desiredTag, o);
      response := if failed then response.(failed := true) else response.(deploymentTriggered := true);
    }
  }

  // ---------------------------------------------------------------- what one sync does

  /** The first service that carries the id. */
  predicate IsFirstWithId(services: seq<Service>, id: string, k: nat) {
    k < |services| && services[k].serviceId == id && forall j :: 0 <= j < k ==> services[j].serviceId != id
  }

  /** The service of an application is the first that carries its service id, or its name if it has none; failing that, the
      only service there is. */
  lemma ChoosesByIdThenName(services: seq<Service>, app: App, id: string, k: nat)
    requires id == if IsBlank(app.repositoryServiceId) then TrimSpace(app.name) else TrimSpace(app.repositoryServiceId)
    ensures id != "" && IsFirstWithId(services, id, k) ==> ResolveService(services, app) == Some(services[k])
    ensures id == "" || (forall j :: 0 <= j < |services| ==> services[j].serviceId != id) ==>
              ResolveService(services, app) == if |services| == 1 then Some(services[0]) else None
  {
    TrimSpaceBlank(app.repositoryServiceId);
    hide TrimSpace, IsBlank;
    FirstNamedIs(services, id, k);
  }

  lemma {:induction false} FirstNamedIs(services: seq<Service>, id: string, k: nat)
    ensures IsFirstWithId(services, id, k) ==> FirstNamed(services, id) == Some(services[k])
    ensures (forall j :: 0 <= j < |services| ==> services[j].serviceId != id) ==> FirstNamed(services, id) == None
  {
    if services != [] {
      FirstNamedIs(services[1..], id, if k > 0 then k - 1 else 0);
    }
  }

  /** A descriptor is refused as a whole if it has no service or one with an id that is no slug, no image, a port that is
      none, or no replica. */
  predicate IsRefused(services: seq<Service>) {
    services == [] || exists k :: 0 <= k < |services|
                                  && (!IsSlug(TrimSpace(services[k].serviceId)) || IsBlank(services[k].image)
                                      || services[k].port < 1 || services[k].port > 65535 || services[k].replicas < 1)
  }

  /** A source that cannot be read, is refused or does not define the application's service fails the sync and leaves the
      application alone. */
  lemma UnusableSourceFails(record: App, source: Source, o: Outcomes)
    requires source.Unreadable?
             || (source.Descriptor? && (IsRefused(source.services) || ResolveService(source.services, record) == None))
    ensures Sync(record, source, o) == (record, Response(false, false, true))
  {
    hide TrimSpace, IsSlug, IsBlank;
    if source.Descriptor? {
      ResolvesAsStored(source.services, record);
      if IsRefused(source.services) && source.services != [] {
        var k :| 0 <= k < |source.services|
                 && (!IsSlug(TrimSpace(source.services[k].serviceId)) || IsBlank(source.services[k].image)
                     || source.services[k].port < 1 || source.services[k].port > 65535 || source.services[k].replicas < 1);
        TrimSpaceBlank(source.services[k].image);
        assert !IsValidService(source.services[k]);
      }
    }
  }

  lemma ResolvesAsStored(services: seq<Service>, record: App)
    ensures ResolveService(services, Loaded(record)) == ResolveService(services, record)
  {
  }

  /** Something other than the tag differs from what a complete desired state asks for. */
  predicate DiffersInSettings(record: App, s: Service) {
    || record.servicePort != s.port || (if record.replicas <= 0 then 1 else record.replicas) != s.replicas
    || record.repositoryServiceId != s.serviceId || ImageRepositoryRef(record.image) != ImageRepositoryRef(s.image)
  }

  lemma PatchFollows(record: App, s: Service)
    requires IsComplete(DesiredOf(s))
    ensures var patch := PatchFor(Loaded(record), DesiredOf(s));
            var patched := if patch == NO_CHANGE then record else Applied(Loaded(record), patch);
            && (patch == NO_CHANGE <==> !DiffersInSettings(record, s))
            && patched.name == record.name && patched.servicePort == s.port && patched.repositoryServiceId == s.serviceId
            && (if patched.replicas <= 0 then 1 else patched.replicas) == s.replicas
            && patched.image == if ImageRepositoryRef(s.image) == ImageRepositoryRef(record.image) then record.image else TrimSpace(s.image)
  {
    hide ImageRepositoryRef, TrimSpace;
  }

  lemma DeployFollows(record: App, desired: Desired, settingsApplied: bool, o: Outcomes)
    requires o.deployAllowed
    ensures var (after, response) := Deployed(record, Loaded(record), desired, settingsApplied, o);
            var tag := ExtractImageTag(desired.image);
            var isNew := tag != "" && tag != ExtractImageTag(record.image);
            && response == Response(settingsApplied, isNew && !IsBlank(tag), isNew && IsBlank(tag))
            && after.name == record.name && after.servicePort == record.servicePort
            && after.repositoryServiceId == record.repositoryServiceId && Loaded(after).replicas == Loaded(record).replicas
            && after.image == if isNew && !IsBlank(tag) then ReplaceImageTag(record.image, tag) else record.image
  {
    TrimSpaceBlank(ExtractImageTag(desired.image));
    hide ExtractImageTag, ReplaceImageTag, TrimSpace, IsBlank;
  }

  /** A sync with a usable descriptor that nothing refuses: it brings port, replicas and service id in line with the chosen
      service, reports settings exactly if some differed, and deploys exactly if the tag of the service's image is one that
      the application does not carry yet. */
  lemma SyncFollowsDescriptor(record: App, services: seq<Service>, o: Outcomes)
    requires !IsRefused(services) && ResolveService(services, record).Some?
    requires o.patchAllowed && o.rereadSucceeds && o.deployAllowed
    ensures var s := ResolveService(services, record).value;
            var (after, response) := Sync(record, Descriptor(services), o);
            var base := if ImageRepositoryRef(s.image) == ImageRepositoryRef(record.image) then record.image else TrimSpace(s.image);
            var tag := ExtractImageTag(s.image);
            var isNew := tag != "" && tag != ExtractImageTag(base);
            && (response.failed <==> isNew && IsBlank(tag))
            && after.name == record.name && after.servicePort == s.port && after.repositoryServiceId == s.serviceId
            && (if after.replicas <= 0 then 1 else after.replicas) == s.replicas
            && (!response.failed ==>
                  && (response.settingsApplied <==> DiffersInSettings(record, s))
                  && (response.deploymentTriggered <==> isNew)
                  && after.image == if isNew then ReplaceImageTag(base, tag) else base)
  {
    hide TrimSpace, IsBlank, ImageRepositoryRef, ExtractImageTag, ReplaceImageTag, IsSlug, IsRefused, ResolveService,
         ResolveDesiredState, PatchFor, Applied, Deployed, DiffersInSettings, IsValidDescriptor;
    var s := ResolveService(services, record).value;
    ResolvesAsStored(services, record);
    UsableIsValid(services);
    ChosenService(services, Loaded(record));
    PatchFollows(record, s);
    var patch := PatchFor(Loaded(record), DesiredOf(s));
    var patched := if patch == NO_CHANGE then record else Applied(Loaded(record), patch);
    DeployFollows(patched, DesiredOf(s), patch != NO_CHANGE, o);
  }

  lemma UsableIsValid(services: seq<Service>)
    requires !IsRefused(services)
    ensures IsValidDescriptor(services)
  {
    hide TrimSpace, IsSlug, IsBlank;
    forall k | 0 <= k < |services| ensures IsValidService(services[k]) { TrimSpaceBlank(services[k].image); }
  }

  /** A refused patch or an unreadable record after it fails the sync; so does a refused deployment, with the settings kept
      that were patched before. */
  lemma RefusalFails(record: App, services: seq<Service>, o: Outcomes)
    requires !IsRefused(services) && ResolveService(services, record).Some?
    requires DiffersInSettings(record, ResolveService(services, record).value) && !(o.patchAllowed && o.rereadSucceeds)
    ensures Sync(record, Descriptor(services), o).1 == Response(false, false, true)
    ensures !o.patchAllowed ==> Sync(record, Descriptor(services), o).0 == record
  {
    ResolvesAsStored(services, record);
    UsableIsValid(services);
    ChosenService(services, Loaded(record));
    hide TrimSpace, IsBlank, ImageRepositoryRef, ExtractImageTag, ReplaceImageTag, IsSlug, IsRefused, ResolveService;
  }

  // ---------------------------------------------------------------- reaching a fixed point

  /** Nothing is patched and nothing is deployed. */
  predicate IsQuiet(record: App, source: Source, o: Outcomes) {
    Sync(record, source, o) == (record, QUIET)
  }

  /** The image agrees with what is desired: same repository, and the desired tag unless that is empty. */
  predicate Agrees(image: string, desired: string) {
    && ImageRepositoryRef(desired) == ImageRepositoryRef(image)
    && (ExtractImageTag(desired) == "" || ExtractImageTag(desired) == ExtractImageTag(image))
  }

  /** Setting the stored service id to the chosen service's own id chooses that service again. */
  lemma ResolvesSameService(services: seq<Service>, app: App, after: App)
    requires IsValidDescriptor(services) && ResolveService(services, app).Some?
    requires after.repositoryServiceId == ResolveService(services, app).value.serviceId
    ensures ResolveService(services, after) == ResolveService(services, app)
  {
    var service := ResolveService(services, app).value;
    assert service in services;
    assert IsValidService(service);
    if |services| != 1 {
      var target := TargetServiceId(app);
      var _, _ := TrimSpaceCuts(app.repositoryServiceId);
      var _, _ := TrimSpaceCuts(app.name);
      TrimSpaceFixed(target);
    }
  }

  /** A descriptor that can be synced with chooses one valid service. */
  lemma ChosenService(services: seq<Service>, app: App)
    requires IsValidDescriptor(services) && ResolveService(services, app).Some?
    ensures var s := ResolveService(services, app).value;
            && IsValidService(s) && s.image != "" && TrimSpace(s.serviceId) != ""
            && ResolveDesiredState(Descriptor(services), app) == Wanted(DesiredOf(s))
  {
    var s := ResolveService(services, app).value;
    assert s in services;
    TrimSpaceBlank(s.image);
  }

  function DesiredOf(service: Service): Desired {
    Desired(service.serviceId, service.image, service.port, service.replicas)
  }

  predicate HasSettings(record: App, desired: Desired) {
    record.repositoryServiceId == desired.serviceId && record.servicePort == desired.port && Loaded(record).replicas == desired.replicas
  }

  function PatchedImage(current: string, desired: string): string {
    if ImageRepositoryRef(desired) == ImageRepositoryRef(current) then current else TrimSpace(desired)
  }

  function DeployedImage(base: string, tag: string): string {
    if tag == "" || tag == ExtractImageTag(base) then base else ReplaceImageTag(base, tag)
  }

  predicate IsComplete(desired: Desired) {
    desired.image != "" && TrimSpace(desired.serviceId) != "" && desired.port > 0 && desired.replicas > 0
  }

  /** The first half of a sync: the patch, if one is needed, settles everything but the tag. */
  lemma AfterPatch(record: App, desired: Desired)
    requires IsComplete(desired)
    ensures var patch := PatchFor(Loaded(record), desired);
            var patched := if patch == NO_CHANGE then record else Applied(Loaded(record), patch);
            HasSettings(patched, desired) && patched.image == PatchedImage(record.image, desired.image)
  {
  }

  /** The second half: the deployment, if one is needed, changes the tag and nothing else. */
  lemma AfterDeploy(record: App, desired: Desired, settingsApplied: bool, o: Outcomes)
    requires !Deployed(record, Loaded(record), desired, settingsApplied, o).1.failed
    ensures var after := Deployed(record, Loaded(record), desired, settingsApplied, o).0;
            && after.image == DeployedImage(record.image, ExtractImageTag(desired.image))
            && (HasSettings(record, desired) ==> HasSettings(after, desired))
  {
  }

  /** What one successful sync with a complete desired state leaves behind. */
  lemma AfterSyncTo(record: App, desired: Desired, o: Outcomes)
    requires IsComplete(desired) && !SyncedTo(record, Loaded(record), desired, o).1.failed
    ensures var after := SyncedTo(record, Loaded(record), desired, o).0;
            HasSettings(after, desired)
            && after.image == DeployedImage(PatchedImage(record.image, desired.image), ExtractImageTag(desired.image))
  {
    AfterPatch(record, desired);
    var patch := PatchFor(Loaded(record), desired);
    if patch == NO_CHANGE {
      AfterDeploy(record, desired, false, o);
    } else {
      AfterDeploy(Applied(Loaded(record), patch), desired, true, o);
    }
  }

  /** With the settings in place, a sync is quiet exactly when the image agrees with the desired one. */
  lemma QuietIff(record: App, desired: Desired, o: Outcomes)
    requires IsComplete(desired) && HasSettings(record, desired)
    ensures SyncedTo(record, Loaded(record), desired, o) == (record, QUIET) <==> Agrees(record.image, desired.image)
  {
  }

  lemma AfterSync(record: App, services: seq<Service>, o: Outcomes) returns (desired: Desired)
    requires !Sync(record, Descriptor(services), o).1.failed
    ensures IsValidDescriptor(services) && ResolveService(services, Loaded(record)).Some?
    ensures desired == DesiredOf(ResolveService(services, Loaded(record)).value) && IsComplete(desired)
    ensures var after := Sync(record, Descriptor(services), o).0;
            && after == SyncedTo(record, Loaded(record), desired, o).0
            && HasSettings(after, desired)
            && after.image == DeployedImage(PatchedImage(record.image, desired.image), ExtractImageTag(desired.image))
            && ResolveService(services, Loaded(after)) == ResolveService(services, Loaded(record))
            && forall again :: IsQuiet(after, Descriptor(services), again) <==> Agrees(after.image, desired.image)
  {
    desired := DesiredOf(ResolveService(services, Loaded(record)).value);
    ChosenService(services, Loaded(record));
    AfterSyncTo(record, desired, o);
    var after := Sync(record, Descriptor(services), o).0;
    ResolvesSameService(services, Loaded(record), Loaded(after));
    ChosenService(services, Loaded(after));
    forall again ensures IsQuiet(after, Descriptor(services), again) <==> Agrees(after.image, desired.image) {
      QuietIff(after, desired, again);
    }
  }

  /** An untagged reference with a slash, while the application carries the same repository with a tag: the whole reference
      is then deployed as if it were a tag. */
  predicate NeedsSecondSync(current: string, desired: string) {
    && !IsTagged(WithoutDigest(desired)) && '/' in WithoutDigest(desired)
    && ImageRepositoryRef(current) == WithoutDigest(desired) != ExtractImageTag(current)
  }

  /** The images that one sync brings into agreement. */
  predicate SettlesAtOnce(current: string, desired: string) {
    if ImageRepositoryRef(desired) == ImageRepositoryRef(current) then !NeedsSecondSync(current, desired)
    else ImageRepositoryRef(TrimSpace(desired)) == ImageRepositoryRef(desired)
  }

  lemma ImageAgrees(current: string, desired: string)
    ensures Agrees(DeployedImage(PatchedImage(current, desired), ExtractImageTag(desired)), desired) <==> SettlesAtOnce(current, desired)
  {
    if ImageRepositoryRef(desired) == ImageRepositoryRef(current) {
      SameRepositoryAgrees(current, desired);
    } else {
      NewRepositoryAgrees(desired);
    }
  }

  lemma SameRepositoryAgrees(current: string, desired: string)
    requires ImageRepositoryRef(desired) == ImageRepositoryRef(current)
    ensures Agrees(DeployedImage(current, ExtractImageTag(desired)), desired) <==> !NeedsSecondSync(current, desired)
  {
    var tag := ExtractImageTag(desired);
    ImageShape(desired);
    ImageShape(current);
    if !(tag == "" || tag == ExtractImageTag(current)) {
      if IsPlainTag(tag) {
        ReplaceTagAlgebra(current, tag, tag);
      } else {
        SlashTag(ImageRepositoryRef(current), tag);
      }
    }
  }

  lemma NewRepositoryAgrees(desired: string)
    ensures Agrees(DeployedImage(TrimSpace(desired), ExtractImageTag(desired)), desired)
            <==> ImageRepositoryRef(TrimSpace(desired)) == ImageRepositoryRef(desired)
  {
    var base, tag := TrimSpace(desired), ExtractImageTag(desired);
    ImageShape(desired);
    ImageShape(base);
    if !(tag == "" || tag == ExtractImageTag(base)) {
      if IsPlainTag(tag) {
        ReplaceTagAlgebra(base, tag, tag);
      } else {
        UntaggedTag(ImageRepositoryRef(base), tag);
        TrimmedIsNoLonger(desired);
      }
    }
  }

  lemma {:induction false} LastInSuffix(prefix: string, s: string, c: char)
    requires c in s
    ensures LastIndexOf(prefix + s, c) == |prefix| + LastIndexOf(s, c)
  {
    var n := |s| - 1;
    if s[n] != c {
      assert s == s[..n] + [s[n]];
      assert (prefix + s)[..|prefix + s| - 1] == prefix + s[..n];
      LastInSuffix(prefix, s[..n], c);
    }
  }

  /** An untagged reference with a slash, put behind a colon, gives an untagged reference again. */
  lemma UntaggedTag(name: string, tag: string)
    requires '@' !in name && '@' !in tag && !IsTagged(tag) && !IsPlainTag(tag)
    ensures ImageRepositoryRef(name + ":" + tag) == name + ":" + tag
  {
    var prefix := name + ":";
    var image := prefix + tag;
    assert '@' !in image;
    assert '/' in tag;
    LastInSuffix(prefix, tag, '/');
    if ':' in tag {
      LastInSuffix(prefix, tag, ':');
    } else {
      assert image[|name|] == ':' && image[|name| + 1..] == tag;
      LastIndexIs(image, ':', |name|);
    }
    hide LastIndexOf, IsPlainTag;
    assert !IsTagged(image);
  }

  /** Trimming does not lengthen what comes before a digest. */
  lemma TrimmedIsNoLonger(image: string)
    ensures |WithoutDigest(TrimSpace(image))| <= |WithoutDigest(image)|
  {
    var lo, hi := TrimSpaceCuts(image);
    var t, k := TrimSpace(image), IndexOf(image, '@');
    assert forall i :: 0 <= i < lo ==> image[i] in image[..lo];
    assert forall i :: hi <= i < |image| ==> image[i] in image[hi..];
    if lo <= k < hi {
      assert t[k - lo] == '@';
      assert t[k - lo] in t;
    }
  }

  /** A "tag" with a slash is not read back as a tag, and lengthens the repository. */
  lemma SlashTag(name: string, tag: string)
    requires '@' !in name && '@' !in tag && !IsPlainTag(tag)
    ensures |ImageRepositoryRef(name + ":" + tag)| > |name|
  {
    hide IndexOf;
    var image := name + ":" + tag;
    assert WithoutDigest(image) == image;
    var colon, slash := LastIndexOf(image, ':'), LastIndexOf(image, '/');
    if '/' in tag || ':' in tag {
      var c := if '/' in tag then '/' else ':';
      var k :| 0 <= k < |tag| && tag[k] == c;
      assert image[|name| + 1 + k] == c;
      LastIndexAtLeast(image, c, |name| + 1 + k);
    }
  }

  lemma LastIndexAtLeast(s: string, c: char, k: nat)
    requires k < |s| && s[k] == c
    ensures LastIndexOf(s, c) >= k
  {
    assert s[k] in s;
  }

  // ---------------------------------------------------------------- the fixed point

  /** After one successful sync the same descriptor resolves to the same service, and whether a second sync patches and
      deploys nothing is decided before the first. */
  lemma OneSyncSettles(record: App, services: seq<Service>, o: Outcomes, again: Outcomes)
    requires !Sync(record, Descriptor(services), o).1.failed
    ensures var service := ResolveService(services, Loaded(record));
            var after := Sync(record, Descriptor(services), o).0;
            && service.Some? && ResolveService(services, Loaded(after)) == service
            && (IsQuiet(after, Descriptor(services), again) <==> SettlesAtOnce(record.image, service.value.image))
  {
    var desired := AfterSync(record, services, o);
    ImageAgrees(record.image, desired.image);
  }

  /** In particular the second sync is quiet for every trimmed and tagged image. */
  lemma TaggedImageSettles(record: App, services: seq<Service>, o: Outcomes, again: Outcomes)
    requires !Sync(record, Descriptor(services), o).1.failed
    requires var service := ResolveService(services, Loaded(record));
             service.Some? ==> IsTrimmed(service.value.image) && IsTagged(WithoutDigest(service.value.image))
    ensures IsQuiet(Sync(record, Descriptor(services), o).0, Descriptor(services), again)
  {
    OneSyncSettles(record, services, o, again);
    TrimSpaceFixed(ResolveService(services, Loaded(record)).value.image);
  }

  /** Two successful syncs always settle a trimmed image. */
  lemma TwoSyncsSettle(record: App, services: seq<Service>, o: Outcomes, o': Outcomes, again: Outcomes)
    requires var once := Sync(record, Descriptor(services), o);
             !once.1.failed && !Sync(once.0, Descriptor(services), o').1.failed
    requires var service := ResolveService(services, Loaded(record));
             service.Some? ==> IsTrimmed(service.value.image)
    ensures IsQuiet(Sync(Sync(record, Descriptor(services), o).0, Descriptor(services), o').0, Descriptor(services), again)
  {
    var desired := AfterSync(record, services, o);
    TrimSpaceFixed(desired.image);
    NoThirdSync(record.image, desired.image);
    OneSyncSettles(Sync(record, Descriptor(services), o).0, services, o', again);
  }

  lemma NoThirdSync(current: string, desired: string)
    requires IsTrimmed(desired)
    ensures !NeedsSecondSync(DeployedImage(PatchedImage(current, desired), ExtractImageTag(desired)), desired)
  {
    TrimSpaceFixed(desired);
    var base, tag := PatchedImage(current, desired), ExtractImageTag(desired);
    ImageShape(desired);
    ImageShape(base);
    if !(tag == "" || tag == ExtractImageTag(base)) {
      if IsPlainTag(tag) {
        ReplaceTagAlgebra(base, tag, tag);
      } else {
        SlashTag(ImageRepositoryRef(base), tag);
      }
    }
  }

  /** The exception exists: an application on some tag of a repository with a slash, the descriptor naming the
      repository without a tag. */
  lemma UntaggedDescriptorNeedsTwo(name: string, tag: string)
    requires '@' !in name && ':' !in name && '/' in name && IsPlainTag(tag)
    ensures NeedsSecondSync(name + ":" + tag, name)
  {
    TaggedShape(name, tag);
    assert (name + ":" + tag)[..|name|] == name && (name + ":" + tag)[|name| + 1..] == tag;
    assert tag != name;
  }

  /** States reached by repeating the sync. */
  function SyncedTimes(record: App, source: Source, outcomes: seq<Outcomes>): App
    decreases |outcomes|
  {
    if |outcomes| == 0 then record else SyncedTimes(Sync(record, source, outcomes[0]).0, source, outcomes[1..])
  }

  /** Settings and trimmed repository of a desired state are stored, but it names the repository with padding. */
  predicate IsPadded(record: App, desired: Desired) {
    && IsComplete(desired) && HasSettings(record, desired) && IsPlainTag(ExtractImageTag(desired.image))
    && ImageRepositoryRef(record.image) == ImageRepositoryRef(TrimSpace(desired.image)) != ImageRepositoryRef(desired.image)
  }

  /** A sync, successful or not, leaves one of three images. */
  lemma ImageAfterSync(record: App, desired: Desired, o: Outcomes)
    requires IsComplete(desired) && HasSettings(record, desired)
    ensures var after := SyncedTo(record, Loaded(record), desired, o).0;
            var patched := PatchedImage(record.image, desired.image);
            && HasSettings(after, desired)
            && (after.image == record.image || after.image == patched
                || after.image == DeployedImage(patched, ExtractImageTag(desired.image)))
  {
    hide TrimSpace, ImageRepositoryRef, ExtractImageTag, ReplaceImageTag;
    AfterPatch(record, desired);
    if !SyncedTo(record, Loaded(record), desired, o).1.failed {
      AfterSyncTo(record, desired, o);
    }
  }

  lemma DifferingRepositoryPatches(record: App, desired: Desired, o: Outcomes)
    requires desired.image != "" && ImageRepositoryRef(record.image) != ImageRepositoryRef(desired.image)
    ensures SyncedTo(record, Loaded(record), desired, o).1.failed || SyncedTo(record, Loaded(record), desired, o).1.settingsApplied
  {
    assert PatchFor(Loaded(record), desired).image.Some?;
  }

  lemma PaddedStep(record: App, desired: Desired, o: Outcomes)
    requires IsPadded(record, desired)
    ensures IsPadded(SyncedTo(record, Loaded(record), desired, o).0, desired)
  {
    hide TrimSpace, ImageRepositoryRef, ExtractImageTag, ReplaceImageTag;
    var tag := ExtractImageTag(desired.image);
    ReplaceTagAlgebra(TrimSpace(desired.image), tag, tag);
    ImageAfterSync(record, desired, o);
  }

  /** A padded image is compared as it is and stored trimmed: no number of syncs settles it, each one patches again or
      fails. */
  lemma {:induction false} PaddedImageNeverSettles(record: App, services: seq<Service>, outcomes: seq<Outcomes>, last: Outcomes)
    requires IsValidDescriptor(services) && ResolveService(services, Loaded(record)).Some?
    requires IsPadded(record, DesiredOf(ResolveService(services, Loaded(record)).value))
    ensures var response := Sync(SyncedTimes(record, Descriptor(services), outcomes), Descriptor(services), last).1;
            response.failed || response.settingsApplied
    decreases |outcomes|
  {
    hide TrimSpace, ImageRepositoryRef, ExtractImageTag, ReplaceImageTag, SyncedTo, IsPlainTag;
    ChosenService(services, Loaded(record));
    var desired := DesiredOf(ResolveService(services, Loaded(record)).value);
    if |outcomes| == 0 {
      DifferingRepositoryPatches(record, desired, last);
    } else {
      PaddedStep(record, desired, outcomes[0]);
      var after := Sync(record, Descriptor(services), outcomes[0]).0;
      assert after == SyncedTo(record, Loaded(record), desired, outcomes[0]).0;
      ResolvesSameService(services, Loaded(record), Loaded(after));
      PaddedImageNeverSettles(after, services, outcomes[1..], last);
    }
  }

  /** With a file that only holds a tag: after one successful sync the next is quiet exactly when the tag, without
      anything from its '@' on, has neither '/' nor ':'. */
  lemma TagFileSettles(record: App, tag: string, o: Outcomes, again: Outcomes)
    requires !Sync(record, TagFile(tag), o).1.failed
    ensures IsQuiet(Sync(record, TagFile(tag), o).0, TagFile(tag), again) <==> IsPlainTag(WithoutDigest(tag))
  {
    if tag != "" {
      var after := Sync(record, TagFile(tag), o).0;
      TagSync(record, tag, o);
      TagSync(after, tag, again);
      if IsPlainTag(WithoutDigest(tag)) {
        DesiredByTag(record.image, WithoutDigest(tag));
      }
    }
  }

  predicate IsNewTag(image: string, tag: string) {
    tag != "" && tag != ExtractImageTag(image)
  }

  /** One sync with a tag file: it patches if and only if the tag is not plain, and otherwise deploys a new tag. */
  lemma TagSync(record: App, tag: string, o: Outcomes)
    requires tag != ""
    ensures var (after, response) := Sync(record, TagFile(tag), o);
            if IsPlainTag(WithoutDigest(tag)) then
              && !response.settingsApplied
              && (!response.failed ==> after.image == DeployedImage(record.image, WithoutDigest(tag)))
              && ((after, response) == (record, QUIET) <==> !IsNewTag(record.image, WithoutDigest(tag)))
            else response.settingsApplied || response.failed
  {
    var image := ReplaceImageTag(record.image, tag);
    DesiredByTag(record.image, tag);
    var desired := Desired("", image, 0, 0);
    assert Sync(record, TagFile(tag), o) == SyncedTo(record, Loaded(record), desired, o);
    ImageOnlySync(record, desired, o);
    AfterTag(record, desired, o);
  }

  lemma ImageOnlySync(record: App, desired: Desired, o: Outcomes)
    requires desired.serviceId == "" && desired.port == desired.replicas == 0 && desired.image != ""
    ensures var (after, response) := SyncedTo(record, Loaded(record), desired, o);
            if ImageRepositoryRef(desired.image) == ImageRepositoryRef(record.image)
            then (after, response) == Deployed(record, Loaded(record), desired, false, o)
            else response.settingsApplied || response.failed
  {
    assert TrimSpace("") == "";
  }

  lemma AfterTag(record: App, desired: Desired, o: Outcomes)
    ensures var (after, response) := Deployed(record, Loaded(record), desired, false, o);
            var tag := ExtractImageTag(desired.image);
            && !response.settingsApplied
            && (!response.failed ==> after.image == DeployedImage(record.image, tag))
            && ((after, response) == (record, QUIET) <==> !IsNewTag(record.image, tag))
  {
  }

  lemma DesiredByTag(image: string, tag: string)
    ensures ReplaceImageTag(image, tag) != ""
    ensures IsPlainTag(WithoutDigest(tag)) ==>
              && ImageRepositoryRef(ReplaceImageTag(image, tag)) == ImageRepositoryRef(image)
              && ExtractImageTag(ReplaceImageTag(image, tag)) == WithoutDigest(tag)
    ensures !IsPlainTag(WithoutDigest(tag)) ==> ImageRepositoryRef(ReplaceImageTag(image, tag)) != ImageRepositoryRef(image)
  {
    hide IndexOf, LastIndexOf;
    ImageShape(image);
    var name := ImageRepositoryRef(image);
    DigestOfTag(name, tag);
    if IsPlainTag(WithoutDigest(tag)) {
      ReplaceTagAlgebra(image, WithoutDigest(tag), tag);
    } else {
      SlashTag(name, WithoutDigest(tag));
    }
  }

  lemma DigestOfTag(name: string, tag: string)
    requires '@' !in name
    ensures WithoutDigest(name + ":" + tag) == name + ":" + WithoutDigest(tag)
  {
    var image := name + ":" + tag;
    var k, at := IndexOf(tag, '@'), IndexOf(image, '@');
    if k >= 0 {
      assert image[|name| + 1 + k] == '@';
      assert image[..|name| + 1 + k] == name + ":" + tag[..k];
      IndexIs(image, '@', |name| + 1 + k);
    }
  }

  lemma IndexIs(s: string, c: char, k: nat)
    requires k < |s| && s[k] == c && c !in s[..k]
    ensures IndexOf(s, c) == k
  {
    assert s[k] in s;
  }
}
