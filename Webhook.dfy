/** The pull-request auditor's view of a repository in a GitHub webhook
    payload, and how it splits the repository's full name ("owner/name"). */
module Webhook {

  import opened Strings

  /** The `repository` object of a `pull_request` event payload. */
  datatype RepositoryPayload = RepositoryPayload(fullName: string, url: string)

  /** `seg` is the text `s` starts with up to, not including, the first
      occurrence of `c` (all of `s` when there is none). */
  predicate FirstSegment(seg: string, s: string, c: char)
  {
    |seg| <= |s| && s[..|seg|] == seg && c !in seg && (|seg| == |s| || s[|seg|] == c)
  }

  /** The first segment of a text is unique. */
  lemma FirstSegmentUnique(a: string, b: string, s: string, c: char)
    requires FirstSegment(a, s, c) && FirstSegment(b, s, c)
    ensures a == b
  {
    assert forall k :: 0 <= k < |a| ==> a[k] == s[k];
    assert forall k :: 0 <= k < |b| ==> b[k] == s[k];
    assert |a| < |s| ==> s[|a|] == c;
    assert |b| < |s| ==> s[|b|] == c;
  }

  /** The owner and the name of the repository: the pieces before the first
      and the second slash of its full name. The source indexes the second
      piece of the split unconditionally, so a full name without a slash is
      outside its domain (it panics there). */
  function GetOwnerAndName(r: RepositoryPayload): (res: (string, string))
    requires '/' in r.fullName
    ensures FirstSegment(res.0, r.fullName, '/') && |res.0| < |r.fullName|
    ensures FirstSegment(res.1, r.fullName[|res.0| + 1..], '/')
  {
    var parts := Split(r.fullName, '/');
    SplitPieces(r.fullName, '/');
    SplitHead(r.fullName, '/');
    assert |parts[0]| < |r.fullName| by {
      assert r.fullName[..|r.fullName|] == r.fullName;
    }
    var tail := r.fullName[|parts[0]| + 1..];
    SplitHead(tail, '/');
    assert parts[1] == Split(tail, '/')[0];
    (parts[0], parts[1])
  }

  /** For a full name with exactly one slash, owner and name are the two
      slash-free sides of it and give the full name back. */
  lemma OwnerAndNameRoundTrip(r: RepositoryPayload)
    requires Count(r.fullName, '/') == 1
    ensures '/' in r.fullName
    ensures GetOwnerAndName(r).0 + "/" + GetOwnerAndName(r).1 == r.fullName
    ensures '/' !in GetOwnerAndName(r).0 && '/' !in GetOwnerAndName(r).1
  {
    var parts := Split(r.fullName, '/');
    SplitPieces(r.fullName, '/');
    SplitJoin(r.fullName, '/');
    assert |parts| == 2;
    assert Join(parts, '/') == parts[0] + ['/'] + parts[1];
  }

  /** Owner and name are the full name's pieces whatever else it holds:
      joining an owner and a name that hold no slash and splitting the
      result gives them back. */
  lemma OwnerAndNameOfJoin(owner: string, name: string, url: string)
    requires '/' !in owner && '/' !in name
    ensures '/' in owner + "/" + name
    ensures GetOwnerAndName(RepositoryPayload(owner + "/" + name, url)) == (owner, name)
  {
    var full := owner + "/" + name;
    assert full[|owner|] == '/';
    var res := GetOwnerAndName(RepositoryPayload(full, url));
    assert FirstSegment(owner, full, '/') by {
      assert full[..|owner|] == owner;
    }
    FirstSegmentUnique(res.0, owner, full, '/');
    assert full[|owner| + 1..] == name;
    FirstSegmentUnique(res.1, name, name, '/');
  }
}
