/**
  The web-app manifest of an instance, at the level of the typed struct the
  create handler unmarshals it into. JSON keys the struct does not declare are
  dropped by the typed unmarshal and do not exist at this level.
 */
module Manifest {

  datatype Icon = Icon(src: string, sizes: string, mime: string)

  datatype Screenshot = Screenshot(src: string, mime: string, sizes: string, formFactor: string)

  datatype LaunchHandler = LaunchHandler(clientMode: seq<string>)

  datatype Manifest = Manifest(
    name: string,
    shortName: string,
    categories: string,
    description: string,
    startUrl: string,
    id: string,
    display: string,
    backgroundColor: string,
    themeColor: string,
    screenshots: seq<Screenshot>,
    icons: seq<Icon>,
    launchHandler: LaunchHandler)

  /** The fields the patch owns. */
  predicate HasIdentity(m: Manifest, name: string) {
    m.name == name && m.shortName == name && m.id == "/" + name
  }

  /** Every field except the three identity fields agrees. */
  predicate SameExceptIdentity(a: Manifest, b: Manifest) {
    && a.categories == b.categories
    && a.description == b.description
    && a.startUrl == b.startUrl
    && a.display == b.display
    && a.backgroundColor == b.backgroundColor
    && a.themeColor == b.themeColor
    && a.screenshots == b.screenshots
    && a.icons == b.icons
    && a.launchHandler == b.launchHandler
  }

  /** The record update UpdateManifest applies between unmarshal and marshal. */
  function Patch(m: Manifest, name: string): (r: Manifest)
    ensures HasIdentity(r, name)
    ensures SameExceptIdentity(m, r)
  {
    m.(name := name, shortName := name, id := "/" + name)
  }

  /** The patch result is determined by the identity it installs and the fields it keeps. */
  lemma PatchCharacterized(m: Manifest, name: string, r: Manifest)
    ensures r == Patch(m, name) <==> HasIdentity(r, name) && SameExceptIdentity(m, r)
  {
  }

  /** Patching again with the same name changes nothing. */
  lemma PatchIdempotent(m: Manifest, name: string)
    ensures Patch(Patch(m, name), name) == Patch(m, name)
  {
  }

  /** A second patch overrides the first completely. */
  lemma PatchLastWins(m: Manifest, a: string, b: string)
    ensures Patch(Patch(m, a), b) == Patch(m, b)
  {
  }

  /** Two templates patch to the same manifest exactly when they agree outside the identity fields. */
  lemma PatchForgetsOnlyIdentity(m1: Manifest, m2: Manifest, name: string)
    ensures Patch(m1, name) == Patch(m2, name) <==> SameExceptIdentity(m1, m2)
  {
  }

  /** The name can be read back from the id field. */
  lemma NameFromId(m: Manifest, name: string)
    ensures Patch(m, name).id[1..] == name
  {
  }
}
