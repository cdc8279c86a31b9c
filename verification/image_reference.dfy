/** Image references: the tag operations of store_local.go and poller.go, and the parser of image_verifier.go. */
module ImageReference {
  import opened Text

  /** strings.Index for one character; -1 when there is none. */
  function IndexOf(s: string, c: char): (k: int)
    ensures -1 <= k < |s|
    ensures k == -1 <==> c !in s
    ensures k >= 0 ==> s[k] == c && c !in s[..k]
  {
    if s == "" then -1
    else if s[0] == c then 0
    else
      var k := IndexOf(s[1..], c);
      assert k >= 0 ==> s[..k + 1] == [s[0]] + s[1..][..k];
      if k < 0 then -1 else k + 1
  }

  /** Whether a character occurs in a string and where, seen from the string without its last character. */
  lemma WithoutLast(s: string, k: int, c: char)
    requires s != "" && s[|s| - 1] != c && -1 <= k < |s| - 1
    ensures c in s <==> c in s[..|s| - 1]
    ensures c in s[k + 1..] <==> c in s[..|s| - 1][k + 1..]
  {
    var t := s[..|s| - 1];
    assert s == t + [s[|s| - 1]];
    assert s[k + 1..] == t[k + 1..] + [s[|s| - 1]];
  }

  /** strings.LastIndex for one character. */
  function LastIndexOf(s: string, c: char): (k: int)
    ensures -1 <= k < |s|
    ensures k == -1 <==> c !in s
    ensures k >= 0 ==> s[k] == c && c !in s[k + 1..]
  {
    if s == "" then -1
    else if s[|s| - 1] == c then |s| - 1
    else
      var k := LastIndexOf(s[..|s| - 1], c);
      WithoutLast(s, k, c);
      k
  }

  function WithoutDigest(image: string): string {
    var at := IndexOf(image, '@');
    if at >= 0 then image[..at] else image
  }

  /** The last colon comes after the last slash, so what follows it is a tag and not a port. */
  predicate IsTagged(reference: string) {
    LastIndexOf(reference, ':') > LastIndexOf(reference, '/')
  }

  function ReplaceImageTag(image: string, tag: string): string {
    var reference := WithoutDigest(image);
    if IsTagged(reference) then reference[..LastIndexOf(reference, ':') + 1] + tag else reference + ":" + tag
  }

  function ExtractImageTag(image: string): string {
    var reference := WithoutDigest(image);
    if IsTagged(reference) then reference[LastIndexOf(reference, ':') + 1..] else reference
  }

  function ImageRepositoryRef(image: string): string {
    var reference := WithoutDigest(image);
    if IsTagged(reference) then reference[..LastIndexOf(reference, ':')] else reference
  }

  /** A tag that cannot be mistaken for something else in a reference. */
  predicate IsPlainTag(tag: string) {
    '/' !in tag && ':' !in tag && '@' !in tag
  }

  // ---------------------------------------------------------------- the algebra of tags

  lemma LastIndexIs(s: string, c: char, k: nat)
    requires k < |s| && s[k] == c && c !in s[k + 1..]
    ensures LastIndexOf(s, c) == k
  {
    var j := LastIndexOf(s, c);
    assert s[k] in s;
  }

  /** A name, a colon and a plain tag split back at that colon. */
  lemma TaggedShape(name: string, tag: string)
    requires '@' !in name && IsPlainTag(tag)
    ensures var image := name + ":" + tag;
            WithoutDigest(image) == image && IsTagged(image) && LastIndexOf(image, ':') == |name|
  {
    var image := name + ":" + tag;
    assert image[|name| + 1..] == tag;
    LastIndexIs(image, ':', |name|);
  }

  /** Every image without its digest is its repository alone, or the repository, a colon and a plain tag. */
  lemma ImageShape(image: string)
    ensures '@' !in ImageRepositoryRef(image)
    ensures var reference := WithoutDigest(image);
            if IsTagged(reference)
            then reference == ImageRepositoryRef(image) + ":" + ExtractImageTag(image) && IsPlainTag(ExtractImageTag(image))
            else reference == ImageRepositoryRef(image) == ExtractImageTag(image)
    ensures forall tag :: ReplaceImageTag(image, tag) == ImageRepositoryRef(image) + ":" + tag
  {
    var reference := WithoutDigest(image);
    var colon, slash := LastIndexOf(reference, ':'), LastIndexOf(reference, '/');
    assert '@' !in reference;
    if IsTagged(reference) {
      assert reference == reference[..colon] + ":" + reference[colon + 1..];
      assert forall c :: c in reference[..colon] || c in reference[colon + 1..] ==> c in reference;
      forall tag ensures ReplaceImageTag(image, tag) == ImageRepositoryRef(image) + ":" + tag {
        assert reference[..colon + 1] == reference[..colon] + ":";
      }
    }
  }

  /** Replacing the tag of any image, digests and registry ports included: the new tag reads back, the repository stays,
      and a second replacement forgets the first. */
  lemma ReplaceTagAlgebra(image: string, tag: string, other: string)
    requires IsPlainTag(tag)
    ensures ExtractImageTag(ReplaceImageTag(image, tag)) == tag
    ensures ImageRepositoryRef(ReplaceImageTag(image, tag)) == ImageRepositoryRef(image)
    ensures ReplaceImageTag(ReplaceImageTag(image, tag), other) == ReplaceImageTag(image, other)
  {
    ImageShape(image);
    ImageShape(ReplaceImageTag(image, tag));
    TaggedShape(ImageRepositoryRef(image), tag);
  }

  /** An image is determined, up to its digest, by repository and tag. */
  lemma ReplaceOwnTag(image: string)
    ensures ReplaceImageTag(image, ExtractImageTag(image)) == WithoutDigest(image) <==> IsTagged(WithoutDigest(image))
  {
    ImageShape(image);
  }

  // ---------------------------------------------------------------- parsing

  datatype ParseResult = Parsed(registry: string, repository: string, identifier: string) | ParseError(reason: string)

  const DOCKER_HUB := "registry-1.docker.io"

  /** The part of a name before its first slash: the first of the parts strings.Split returns. */
  function FirstPart(name: string): string {
    var k := IndexOf(name, '/');
    if k < 0 then name else name[..k]
  }

  /** The other parts joined again; None if there are none. */
  function OtherParts(name: string): Option<string> {
    var k := IndexOf(name, '/');
    if k < 0 then None else Some(name[k + 1..])
  }

  predicate IsRegistryComponent(value: string) {
    '.' in value || ':' in value || value == "localhost"
  }

  /** The registry and repository of a reference without its tag or digest. */
  function ParseName(name: string, identifier: string): ParseResult {
    var explicit := IsRegistryComponent(FirstPart(name));
    var registry := if explicit then FirstPart(name) else DOCKER_HUB;
    var repository := if explicit then OtherParts(name) else Some(name);
    match repository
    case None => ParseError("missing repository path")
    case Some(path) =>
      Parsed(registry, if registry == DOCKER_HUB && '/' !in path then "library/" + path else path, identifier)
  }

  /** A reference split into its name and its identifier. */
  datatype Cut = Cut(name: string, identifier: string) | Malformed(reason: string)

  function CutIdentifier(reference: string): Cut {
    var at, colon := LastIndexOf(reference, '@'), LastIndexOf(reference, ':');
    if reference == "" then Malformed("empty image reference")
    else if at >= 0 then
      if reference[at + 1..] == "" then Malformed("empty digest") else Cut(reference[..at], reference[at + 1..])
    else if IsTagged(reference) then
      if reference[colon + 1..] == "" then Malformed("empty tag") else Cut(reference[..colon], reference[colon + 1..])
    else Cut(reference, "latest")
  }

  function ParseImageReference(image: string): ParseResult {
    match CutIdentifier(TrimSpace(image))
    case Malformed(reason) => ParseError(reason)
    case Cut(name, identifier) => ParseName(name, identifier)
  }

  lemma WithoutDigestFixed(image: string)
    requires '@' !in image
    ensures WithoutDigest(image) == image
  {
  }

  /** An image without digest is cut into its repository and its tag. */
  lemma CutByTag(image: string)
    requires '@' !in image
    ensures CutIdentifier(image) ==
            if image == "" then Malformed("empty image reference")
            else if !IsTagged(image) then Cut(ImageRepositoryRef(image), "latest")
            else if ExtractImageTag(image) == "" then Malformed("empty tag")
            else Cut(ImageRepositoryRef(image), ExtractImageTag(image))
  {
    hide IndexOf, WithoutDigest;
    WithoutDigestFixed(image);
  }

  /** Name, colon and plain tag are cut back into the same name and tag. */
  lemma CutTagged(name: string, tag: string)
    requires '@' !in name && IsPlainTag(tag) && tag != ""
    ensures CutIdentifier(name + ":" + tag) == Cut(name, tag)
  {
    var image := name + ":" + tag;
    assert '@' !in image;
    hide IndexOf, LastIndexOf, CutIdentifier, IsPlainTag, WithoutDigest, IsTagged;
    TaggedShape(name, tag);
    CutByTag(image);
    assert image[..|name|] == name && image[|name| + 1..] == tag;
  }

  lemma JoinIsTrimmed(name: string, tag: string)
    requires name != "" ==> !IsSpace(name[0])
    requires tag != "" && !IsSpace(tag[|tag| - 1])
    ensures TrimSpace(name + ":" + tag) == name + ":" + tag
  {
    var image := name + ":" + tag;
    assert image[|image| - 1] == tag[|tag| - 1];
    assert image[0] == if name == "" then ':' else name[0];
    TrimSpaceFixed(image);
  }

  /** Parsing after a tag replacement keeps registry and repository, ports included, and yields the tag. */
  lemma ParseAfterReplace(image: string, tag: string)
    requires IsTrimmed(image) && '@' !in image && ParseImageReference(image).Parsed?
    requires IsPlainTag(tag) && tag != "" && forall c :: c in tag ==> !IsSpace(c)
    ensures ParseImageReference(ReplaceImageTag(image, tag)) == ParseImageReference(image).(identifier := tag)
  {
    hide IndexOf, LastIndexOf, WithoutDigest, IsTagged, CutIdentifier, ImageRepositoryRef, ExtractImageTag,
         ReplaceImageTag, TrimSpace, IsSpace, IsTrimmed;
    TrimSpaceFixed(image);
    WithoutDigestFixed(image);
    var c := CutIdentifier(image);
    CutParts(image);
    CutByTag(image);
    ImageShape(image);
    assert tag[|tag| - 1] in tag;
    JoinIsTrimmed(c.name, tag);
    CutTagged(c.name, tag);
  }

  /** The full form of a parsed image. */
  function Canonical(p: ParseResult): string
    requires p.Parsed?
  {
    p.registry + "/" + p.repository + ":" + p.identifier
  }

  lemma FirstPartOf(first: string, rest: string)
    requires '/' !in first
    ensures FirstPart(first + "/" + rest) == first && OtherParts(first + "/" + rest) == Some(rest)
  {
    var s := first + "/" + rest;
    var k := IndexOf(s, '/');
    assert s[|first|] == '/';
    assert s[..k] == first && s[k + 1..] == rest;
  }

  lemma HubParts()
    ensures IsRegistryComponent(DOCKER_HUB) && '/' !in DOCKER_HUB && '@' !in DOCKER_HUB
  {
    var hub := DOCKER_HUB;
    assert hub[10] == '.';
  }

  lemma LibraryPrefix(path: string)
    ensures '/' in "library/" + path
    ensures '@' !in path ==> '@' !in "library/" + path
  {
    assert ("library/" + path)[7] == '/';
  }

  /** What ParseName returns for a name without '@'. */
  lemma NameParts(name: string, identifier: string)
    requires ParseName(name, identifier).Parsed? && '@' !in name
    ensures var p := ParseName(name, identifier);
            && '/' !in p.registry && IsRegistryComponent(p.registry) && p.registry != "" && '@' !in p.registry
            && '@' !in p.repository && (p.registry == DOCKER_HUB ==> '/' in p.repository)
            && (p.registry != DOCKER_HUB ==> name != "" && p.registry[0] == name[0])
  {
    HubParts();
    var k := IndexOf(name, '/');
    if k >= 0 {
      assert '@' !in name[..k] && '@' !in name[k + 1..];
      LibraryPrefix(name[k + 1..]);
    }
    LibraryPrefix(name);
  }

  lemma NameIsStable(name: string, identifier: string)
    requires ParseName(name, identifier).Parsed? && '@' !in name
    ensures var p := ParseName(name, identifier);
            ParseName(p.registry + "/" + p.repository, identifier) == p
  {
    NameParts(name, identifier);
    var p := ParseName(name, identifier);
    FirstPartOf(p.registry, p.repository);
  }

  /** A digest-free reference: its cut has a plain identifier and a name that starts as the reference does. */
  lemma CutParts(reference: string)
    requires IsTrimmed(reference) && '@' !in reference && CutIdentifier(reference).Cut?
    ensures var c := CutIdentifier(reference);
            && '@' !in c.name && (c.name != "" ==> !IsSpace(c.name[0]))
            && IsPlainTag(c.identifier) && c.identifier != "" && !IsSpace(c.identifier[|c.identifier| - 1])
  {
    hide IndexOf, LastIndexOf, WithoutDigest, IsTagged, CutIdentifier, ImageRepositoryRef, ExtractImageTag, ReplaceImageTag;
    var c := CutIdentifier(reference);
    WithoutDigestFixed(reference);
    CutByTag(reference);
    ImageShape(reference);
    if IsTagged(reference) {
      assert c.name != "" ==> c.name[0] == reference[0];
      assert c.identifier[|c.identifier| - 1] == reference[|reference| - 1];
    } else {
      assert c == Cut(reference, "latest");
    }
  }

  /** The parse of a digest-free image, its registry and path joined again, and the registry's first character. */
  lemma ParseParts(image: string) returns (p: ParseResult)
    requires '@' !in image && ParseImageReference(image).Parsed?
    ensures p == ParseImageReference(image) && ParseName(p.registry + "/" + p.repository, p.identifier) == p
    ensures '@' !in p.registry + "/" + p.repository && p.registry != "" && !IsSpace(p.registry[0])
    ensures IsPlainTag(p.identifier) && p.identifier != "" && !IsSpace(p.identifier[|p.identifier| - 1])
  {
    hide ParseName, CutIdentifier, TrimSpace, IsSpace, IsTrimmed, IsPlainTag, IsRegistryComponent;
    var lo, hi := TrimSpaceCuts(image);
    var t := TrimSpace(image);
    assert '@' !in t;
    CutParts(t);
    var c := CutIdentifier(t);
    NameParts(c.name, c.identifier);
    NameIsStable(c.name, c.identifier);
    HubIsVisible();
    p := ParseName(c.name, c.identifier);
    NameKeepsIdentifier(c.name, c.identifier);
  }

  lemma HubIsVisible()
    ensures !IsSpace(DOCKER_HUB[0])
  {
  }

  lemma NameKeepsIdentifier(name: string, identifier: string)
    requires ParseName(name, identifier).Parsed?
    ensures ParseName(name, identifier).identifier == identifier
  {
  }

  /** Writing a parsed image out in full and parsing it again gives the same parts: the defaults for registry, library
      prefix and tag are filled in once. */
  lemma CanonicalParses(image: string)
    requires '@' !in image && ParseImageReference(image).Parsed?
    ensures ParseImageReference(Canonical(ParseImageReference(image))) == ParseImageReference(image)
  {
    hide ParseName, CutIdentifier, TrimSpace, IsSpace, IsPlainTag;
    var p := ParseParts(image);
    var path := p.registry + "/" + p.repository;
    assert path[0] == p.registry[0];
    JoinIsTrimmed(path, p.identifier);
    CutTagged(path, p.identifier);
  }

  // ---------------------------------------------------------------- what a reference means

  /** What follows the last at sign of a reference is its digest. */
  lemma ParsesDigest(name: string, digest: string)
    requires '@' !in digest && digest != "" && IsTrimmed(name + "@" + digest)
    ensures ParseImageReference(name + "@" + digest) == ParseName(name, digest)
  {
    hide ParseName, TrimSpace, IsTrimmed;
    var image := name + "@" + digest;
    TrimSpaceFixed(image);
    assert image[|name|] == '@' && image[|name| + 1..] == digest && image[..|name|] == name;
    LastIndexIs(image, '@', |name|);
  }

  /** A host with a dot or a port, or localhost, is the registry; what follows is the repository. */
  lemma ParsesWithRegistry(host: string, path: string, tag: string)
    requires '/' !in host && '@' !in host && ('.' in host || ':' in host || host == "localhost") && !IsSpace(host[0])
    requires '@' !in path && IsPlainTag(tag) && tag != "" && !IsSpace(tag[|tag| - 1])
    ensures ParseImageReference(host + "/" + path + ":" + tag)
            == Parsed(host, if host == "registry-1.docker.io" && '/' !in path then "library/" + path else path, tag)
  {
    hide IsSpace, IsPlainTag, TrimSpace, CutIdentifier;
    var name := host + "/" + path;
    assert name[0] == host[0];
    JoinIsTrimmed(name, tag);
    CutTagged(name, tag);
    FirstPartOf(host, path);
  }

  /** Any other name lies in Docker Hub, in the library if it has one part. */
  lemma ParsesWithoutRegistry(name: string, tag: string)
    requires name != "" && '@' !in name && !IsSpace(name[0]) && IsPlainTag(tag) && tag != "" && !IsSpace(tag[|tag| - 1])
    requires forall k :: 0 <= k <= |name| && '/' !in name[..k] && (k < |name| ==> name[k] == '/') ==>
               '.' !in name[..k] && ':' !in name[..k] && name[..k] != "localhost"
    ensures ParseImageReference(name + ":" + tag)
            == Parsed("registry-1.docker.io", if '/' in name then name else "library/" + name, tag)
  {
    hide IsSpace, IsPlainTag, TrimSpace, CutIdentifier;
    JoinIsTrimmed(name, tag);
    CutTagged(name, tag);
    var k := IndexOf(name, '/');
    assert name[..|name|] == name;
    if k >= 0 { assert FirstPart(name) == name[..k]; }
  }

  /** Without a tag or digest the identifier is "latest". */
  lemma ParsesUntagged(name: string)
    requires name != "" && '@' !in name && ':' !in name && IsTrimmed(name)
    ensures ParseImageReference(name) == ParseName(name, "latest")
  {
    hide ParseName, TrimSpace, IsTrimmed;
    TrimSpaceFixed(name);
  }

  /** A reference is refused exactly if nothing is there, its digest or tag is empty, or it names a registry and no path. */
  lemma ParseFailsExactly(image: string)
    ensures var t := TrimSpace(image);
            ParseImageReference(image).ParseError? <==>
              || t == "" || t[|t| - 1] == '@' || ('@' !in t && t[|t| - 1] == ':')
              || (CutIdentifier(t).Cut? && '/' !in CutIdentifier(t).name && IsRegistryComponent(CutIdentifier(t).name))
  {
    hide TrimSpace, IsRegistryComponent;
    var t := TrimSpace(image);
    if t != "" {
      CutFailsExactly(t);
      hide CutIdentifier;
    }
  }

  lemma CutFailsExactly(t: string)
    requires t != ""
    ensures CutIdentifier(t).Malformed? <==> t[|t| - 1] == '@' || ('@' !in t && t[|t| - 1] == ':')
  {
    var n := |t| - 1;
    assert t[n] in t && t[n + 1..] == "";
    if t[n] == '@' { LastIndexIs(t, '@', n); }
    if t[n] == ':' { LastIndexIs(t, ':', n); }
  }
}
