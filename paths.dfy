/** Prefix derivation and the three base paths of a resource. */
module Paths {
  import opened Wrappers
  import opened Text

  /** `parent_resource`: the names of the resource this one is nested under. */
  datatype Parent = Parent(memberName: string, collectionName: string)

  /** `path_prefix` after defaulting: an explicit value wins, otherwise it is
      derived from the parent as "<parent collection>/:<parent member>_id",
      otherwise it is empty. */
  function PathPrefix(parent: Option<Parent>, explicit: Option<string>): string {
    match explicit
    case Some(p) => p
    case None =>
      match parent
      case Some(pr) => pr.collectionName + "/:" + pr.memberName + "_id"
      case None => ""
  }

  /** `name_prefix` after defaulting: an explicit value wins, otherwise
      "<parent member>_", otherwise empty. */
  function NamePrefix(parent: Option<Parent>, explicit: Option<string>): string {
    match explicit
    case Some(n) => n
    case None =>
      match parent
      case Some(pr) => pr.memberName + "_"
      case None => ""
  }

  /** `collection_path`. The source also tests that "/" + prefix is non-empty,
      which always holds, so only the comparison with "/" is kept. */
  function CollectionPath(pathPrefix: string, collectionName: string): string {
    var controller := StripSlashes(collectionName);
    var prefix := "/" + StripSlashes(pathPrefix);
    if prefix != "/" then prefix + "/" + controller else "/" + controller
  }

  function NewPath(collectionPath: string): string {
    collectionPath + "/new"
  }

  function MemberPath(collectionPath: string): string {
    collectionPath + "/:id"
  }

  /** The collection path is the stripped prefix and the stripped collection
      name, each after one slash; an empty prefix contributes nothing. */
  lemma CollectionPathShape(pathPrefix: string, collectionName: string)
    ensures CollectionPath(pathPrefix, collectionName) ==
      if StripSlashes(pathPrefix) == "" then "/" + StripSlashes(collectionName)
      else "/" + StripSlashes(pathPrefix) + "/" + StripSlashes(collectionName)
  {
    var p := StripSlashes(pathPrefix);
    if p != "" {
      assert |"/" + p| > 1;
    }
  }

  /** Writing the prefix with a leading slash, a trailing slash, both or
      neither gives the same collection path. */
  lemma PrefixSlashesIrrelevant(prefix: string, collectionName: string)
    requires !HasLeadingSlash(prefix) && !HasTrailingSlash(prefix)
    ensures CollectionPath("/" + prefix, collectionName) == CollectionPath(prefix, collectionName)
    ensures CollectionPath(prefix + "/", collectionName) == CollectionPath(prefix, collectionName)
    ensures CollectionPath("/" + prefix + "/", collectionName) == CollectionPath(prefix, collectionName)
  {
    StripSlashesIgnoresLeadingSlash(prefix);
    StripSlashesIgnoresTrailingSlash(prefix);
    if prefix == "" {
      assert "/" + prefix + "/" == "//";
    } else {
      assert !HasTrailingSlash("/" + prefix);
      StripSlashesIgnoresTrailingSlash("/" + prefix);
    }
  }
}
