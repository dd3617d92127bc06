/** Object keys of uploads: how they are built, and what can be read back from them. */
module ObjectKeys {
  import opened Prelude

  const ID_LENGTH := 36

  predicate Safe(c: char) {
    'A' <= c <= 'Z' || 'a' <= c <= 'z' || '0' <= c <= '9' || c == '.' || c == '_' || c == '-'
  }

  /** By code point: the letters and digits of ASCII, hyphen, dot and underscore are kept, and no others. */
  lemma SafeExactly(c: char)
    ensures Safe(c) <==> 65 <= c as int <= 90 || 97 <= c as int <= 122 || 48 <= c as int <= 57 || c as int in {45, 46, 95}
  {
  }

  /** Every unsafe character becomes an underscore. */
  function Sanitize(name: string): (r: string)
    ensures |r| == |name|
    ensures forall i :: 0 <= i < |r| ==> Safe(r[i]) && r[i] == if Safe(name[i]) then name[i] else '_'
  {
    if name == "" then "" else [if Safe(name[0]) then name[0] else '_'] + Sanitize(name[1..])
  }

  function ObjectKey(orgName: string, orgId: string, deal: string, upload: string, filename: string): string {
    Sanitize(orgName) + "-" + orgId + "/" + deal + "/" + upload + "-" + filename
  }

  datatype Parts = Parts(orgName: string, orgId: string, deal: string, upload: string, filename: string)

  // ---------- reading a key ----------

  function FirstIndex(s: string, c: char): (r: Option<nat>)
    ensures r.Some? ==> r.value < |s| && s[r.value] == c && c !in s[..r.value]
    ensures r.None? ==> c !in s
  {
    if s == "" then None
    else if s[0] == c then Some(0)
    else match FirstIndex(s[1..], c)
         case None => None
         case Some(i) => Some(i + 1)
  }

  function LastIndex(s: string, c: char): (r: Option<nat>)
    ensures r.Some? ==> r.value < |s| && s[r.value] == c && c !in s[r.value + 1..]
    ensures r.None? ==> c !in s
  {
    if s == "" then None
    else if s[|s| - 1] == c then Some(|s| - 1)
    else
      var p := LastIndex(s[..|s| - 1], c);
      assert p.Some? ==> s[p.value + 1..] == s[..|s| - 1][p.value + 1..] + [s[|s| - 1]];
      p
  }

  /** The head ends at the first slash and splits at its last hyphen; the two ids have a fixed length. */
  function Parse(key: string): Option<Parts> {
    match FirstIndex(key, '/')
    case None => None
    case Some(slash) =>
      match LastIndex(key[..slash], '-')
      case None => None
      case Some(hyphen) =>
        var tail := key[slash + 1..];
        if |tail| < 2 * ID_LENGTH + 2 then None
        else Some(Parts(key[..hyphen], key[hyphen + 1..slash], tail[..ID_LENGTH],
                        tail[ID_LENGTH + 1..2 * ID_LENGTH + 1], tail[2 * ID_LENGTH + 2..]))
  }

  // ---------- the laws ----------

  lemma SanitizeIsIdempotent(name: string)
    ensures Sanitize(Sanitize(name)) == Sanitize(name)
  {
    var once := Sanitize(name);
    assert forall i :: 0 <= i < |once| ==> Sanitize(once)[i] == once[i];
  }

  lemma FirstIndexIs(s: string, c: char, i: nat)
    requires i < |s| && s[i] == c && c !in s[..i]
    ensures FirstIndex(s, c) == Some(i)
  {
    assert s[i] in s;
  }

  lemma LastIndexIs(s: string, c: char, i: nat)
    requires i < |s| && s[i] == c && c !in s[i + 1..]
    ensures LastIndex(s, c) == Some(i)
  {
    assert s[i] in s;
  }

  predicate Fits(orgId: string, deal: string, upload: string) {
    '/' !in orgId && |deal| == ID_LENGTH && |upload| == ID_LENGTH
  }

  function Head(orgName: string, orgId: string): string {
    Sanitize(orgName) + "-" + orgId
  }

  lemma HeadHasNoSlash(orgName: string, orgId: string)
    requires '/' !in orgId
    ensures '/' !in Head(orgName, orgId)
  {
    var safe := Sanitize(orgName);
    assert forall i :: 0 <= i < |safe| ==> safe[i] != '/';
  }

  lemma KeySplits(orgName: string, orgId: string, deal: string, upload: string, filename: string)
    requires Fits(orgId, deal, upload)
    ensures var key, head := ObjectKey(orgName, orgId, deal, upload, filename), Head(orgName, orgId);
            && FirstIndex(key, '/') == Some(|head|)
            && key[..|head|] == head
            && key[|head| + 1..] == deal + "/" + upload + "-" + filename
  {
    var key, head := ObjectKey(orgName, orgId, deal, upload, filename), Head(orgName, orgId);
    assert key == head + "/" + (deal + "/" + upload + "-" + filename);
    assert key[..|head|] == head && key[|head|] == '/';
    HeadHasNoSlash(orgName, orgId);
    FirstIndexIs(key, '/', |head|);
  }

  lemma TailSplits(deal: string, upload: string, filename: string)
    requires |deal| == ID_LENGTH && |upload| == ID_LENGTH
    ensures var tail := deal + "/" + upload + "-" + filename;
            && |tail| >= 2 * ID_LENGTH + 2
            && tail[..ID_LENGTH] == deal
            && tail[ID_LENGTH + 1..2 * ID_LENGTH + 1] == upload
            && tail[2 * ID_LENGTH + 2..] == filename
  {
  }

  /** For an org id without slash or hyphen and 36-character ids, everything can be read back but what the
      sanitizing erased from the name. The filename may hold any characters. */
  lemma KeyRoundTrip(orgName: string, orgId: string, deal: string, upload: string, filename: string)
    requires Fits(orgId, deal, upload) && '-' !in orgId
    ensures Parse(ObjectKey(orgName, orgId, deal, upload, filename)) ==
            Some(Parts(Sanitize(orgName), orgId, deal, upload, filename))
  {
    var key, head, n := ObjectKey(orgName, orgId, deal, upload, filename), Head(orgName, orgId), |Sanitize(orgName)|;
    KeySplits(orgName, orgId, deal, upload, filename);
    TailSplits(deal, upload, filename);
    HeadSplits(orgName, orgId);
    SlicesOfHead(key, head, n);
    ParseAt(key, |head|, n);
  }

  lemma SlicesOfHead(key: string, head: string, n: nat)
    requires n < |head| <= |key| && key[..|head|] == head
    ensures key[..n] == head[..n] && key[n + 1..|head|] == head[n + 1..]
  {
    assert key[..|head|][..n] == key[..n] && key[..|head|][n + 1..] == key[n + 1..|head|];
  }

  lemma ParseAt(key: string, slash: nat, hyphen: nat)
    requires FirstIndex(key, '/') == Some(slash) && LastIndex(key[..slash], '-') == Some(hyphen)
    requires |key[slash + 1..]| >= 2 * ID_LENGTH + 2
    ensures var tail := key[slash + 1..];
            Parse(key) == Some(Parts(key[..hyphen], key[hyphen + 1..slash], tail[..ID_LENGTH],
                                     tail[ID_LENGTH + 1..2 * ID_LENGTH + 1], tail[2 * ID_LENGTH + 2..]))
  {
  }

  lemma HeadSplits(orgName: string, orgId: string)
    requires '-' !in orgId
    ensures var head, n := Head(orgName, orgId), |Sanitize(orgName)|;
            LastIndex(head, '-') == Some(n) && head[..n] == Sanitize(orgName) && head[n + 1..] == orgId
  {
    var head, n := Head(orgName, orgId), |Sanitize(orgName)|;
    assert head[n] == '-' && head[n + 1..] == orgId;
    LastIndexIs(head, '-', n);
  }

  /** Two uploads share a key exactly when their ids and filename agree and their heads do. */
  lemma KeysCollideExactly(a: Parts, b: Parts)
    requires Fits(a.orgId, a.deal, a.upload) && Fits(b.orgId, b.deal, b.upload)
    ensures ObjectKey(a.orgName, a.orgId, a.deal, a.upload, a.filename) == ObjectKey(b.orgName, b.orgId, b.deal, b.upload, b.filename)
            <==> Head(a.orgName, a.orgId) == Head(b.orgName, b.orgId)
                 && a.deal == b.deal && a.upload == b.upload && a.filename == b.filename
  {
    KeySplits(a.orgName, a.orgId, a.deal, a.upload, a.filename);
    KeySplits(b.orgName, b.orgId, b.deal, b.upload, b.filename);
    TailSplits(a.deal, a.upload, a.filename);
    TailSplits(b.deal, b.upload, b.filename);
  }

  /** Distinct orgs, deals, uploads or filenames never share a key while org ids hold no hyphen. */
  lemma KeysDiffer(a: Parts, b: Parts)
    requires Fits(a.orgId, a.deal, a.upload) && Fits(b.orgId, b.deal, b.upload)
    requires '-' !in a.orgId && '-' !in b.orgId
    requires (a.orgId, a.deal, a.upload, a.filename) != (b.orgId, b.deal, b.upload, b.filename)
    ensures ObjectKey(a.orgName, a.orgId, a.deal, a.upload, a.filename) != ObjectKey(b.orgName, b.orgId, b.deal, b.upload, b.filename)
  {
    KeyRoundTrip(a.orgName, a.orgId, a.deal, a.upload, a.filename);
    KeyRoundTrip(b.orgName, b.orgId, b.deal, b.upload, b.filename);
  }

  lemma SanitizeKeepsSafe(name: string)
    requires forall i :: 0 <= i < |name| ==> Safe(name[i])
    ensures Sanitize(name) == name
  {
  }

  /** With a hyphen in an org id, two orgs can share a key: name `a` in org `b-c` and name `a-b` in org `c`. */
  lemma HyphenatedOrgsCollide(a: string, b: string, c: string, deal: string, upload: string, filename: string)
    requires forall i :: 0 <= i < |a| ==> Safe(a[i])
    requires forall i :: 0 <= i < |b| ==> Safe(b[i])
    ensures ObjectKey(a, b + "-" + c, deal, upload, filename) == ObjectKey(a + "-" + b, c, deal, upload, filename)
  {
    SanitizeKeepsSafe(a);
    SanitizeKeepsSafe(a + "-" + b);
    assert a + "-" + (b + "-" + c) == (a + "-" + b) + "-" + c;
  }
}
