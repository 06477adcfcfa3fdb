/** The signed audit bundle: per-file digests, the canonical string over them, a signature over that
  * string, and offline verification. SHA-256 is a function given from outside; Ed25519 is symbolic:
  * a key verifies exactly the message it signed. */
module BundleCanonical {
  import opened Options
  import opened Strings

  type Hash = string -> string

  const DIGEST_LENGTH: nat := 64

  /** Hexadecimal digests: one length, and no newline. Says nothing about collisions. */
  ghost predicate IsDigest(hash: Hash) { forall x :: |hash(x)| == DIGEST_LENGTH && '\n' !in hash(x) }

  // --- the canonical string -----------------------------------------------------------------------

  function Line(p: Pair): string { p.0 + ":" + p.1 }

  function JoinLines(d: Dict): string {
    if d == [] then "" else if |d| == 1 then Line(d[0]) else Line(d[0]) + "\n" + JoinLines(d[1..])
  }

  /** `_canonical`: one `name:digest` line for every name in sorted order. */
  function Canonical(digests: Dict): string { JoinLines(Sort(digests)) }

  ghost predicate CleanPair(p: Pair) { '\n' !in p.0 && '\n' !in p.1 && |p.1| == DIGEST_LENGTH }

  ghost predicate Clean(d: Dict) { forall i :: 0 <= i < |d| ==> CleanPair(d[i]) }

  /** The digest has a fixed length, so a colon inside a name does no harm. */
  lemma LineIsInjective(p: Pair, q: Pair)
    requires |p.1| == |q.1| && Line(p) == Line(q)
    ensures p == q
  {
    var n, m := |p.0|, |q.0|;
    assert |Line(p)| == n + 1 + |p.1| && |Line(q)| == m + 1 + |q.1|;
    assert p.0 == Line(p)[..n] && q.0 == Line(q)[..m];
    assert p.1 == Line(p)[n + 1..] && q.1 == Line(q)[m + 1..];
  }

  /** Reading a joined text up to its first newline gives the first line and the rest. */
  lemma FirstLine(d: Dict)
    requires Clean(d) && d != []
    ensures JoinLines(d) != ""
    ensures Until(JoinLines(d), '\n') == if |d| == 1 then None else Some((Line(d[0]), JoinLines(d[1..])))
  {
    assert CleanPair(d[0]);
    assert '\n' !in Line(d[0]);
    UntilMisses(Line(d[0]), '\n');
    if |d| > 1 {
      assert JoinLines(d) == Line(d[0]) + ['\n'] + JoinLines(d[1..]);
      UntilFinds(Line(d[0]), '\n', JoinLines(d[1..]));
    }
  }

  lemma {:induction false} JoinLinesIsInjective(a: Dict, b: Dict)
    requires Clean(a) && Clean(b) && JoinLines(a) == JoinLines(b)
    ensures a == b
  {
    if a != [] { FirstLine(a); }
    if b != [] { FirstLine(b); }
    if a != [] && b != [] {
      assert CleanPair(a[0]) && CleanPair(b[0]);
      LineIsInjective(a[0], b[0]);
      if |a| > 1 { JoinLinesIsInjective(a[1..], b[1..]); }
      assert a == [a[0]] + a[1..] && b == [b[0]] + b[1..];
    }
  }

  lemma SortStaysClean(d: Dict)
    requires IsDict(d) && Clean(d)
    ensures Clean(Sort(d))
  {
    SortHasTheSame(d);
    forall i | 0 <= i < |Sort(d)| ensures CleanPair(Sort(d)[i]) { assert Sort(d)[i] in d; }
  }

  /** On newline-free names and digests of fixed length, two canonical strings are equal exactly when
    * the digest maps are. */
  lemma CanonicalIsInjective(a: Dict, b: Dict)
    requires IsDict(a) && IsDict(b) && Clean(a) && Clean(b)
    ensures Canonical(a) == Canonical(b) <==> MapOf(a) == MapOf(b)
  {
    SortStaysClean(a);
    SortStaysClean(b);
    SortIsCanonical(a, b);
    if Canonical(a) == Canonical(b) { JoinLinesIsInjective(Sort(a), Sort(b)); }
  }

  /** A newline in a name breaks it: one file can pass for two. */
  lemma NewlineInNameCollides(x: string, hx: string, y: string, hy: string)
    requires Less(x, y)
    ensures Canonical([(Line((x, hx)) + "\n" + y, hy)]) == Canonical([(x, hx), (y, hy)])
  {
    var forged := Line((x, hx)) + "\n" + y;
    var one, last, two := [(forged, hy)], [(y, hy)], [(x, hx), (y, hy)];
    assert one[1..] == [] && last[1..] == [] && two[1..] == last;
    assert Sort(one) == Insert(one[0], Sort([])) == one;
    assert Sort(last) == Insert(last[0], Sort([])) == last;
    assert Sort(two) == Insert(two[0], last) == two;
    assert JoinLines(two) == Line((x, hx)) + "\n" + JoinLines(last);
    assert Line((forged, hy)) == Line((x, hx)) + "\n" + Line((y, hy));
  }

  // --- bundles --------------------------------------------------------------------------------------

  datatype Signature = Signature(key: string, message: string)
  datatype Manifest = Manifest(org: string, generatedAt: string, receipts: nat, kid: string,
                               files: Dict, publicKey: string, signature: Signature)
  datatype Bundle = Bundle(manifest: Manifest, entries: map<string, string>)
  datatype Verdict = Raised | Verdict(verified: bool, filesOk: bool, signatureOk: bool)

  /** Every listed name with the digest of its content. */
  function Digests(files: Dict, hash: Hash): Dict {
    if files == [] then [] else [(files[0].0, hash(files[0].1))] + Digests(files[1..], hash)
  }

  /** `build_bundle` over files already rendered. */
  function Build(files: Dict, org: string, now: string, receipts: nat, kid: string, key: string, hash: Hash): Bundle {
    var digests := Digests(files, hash);
    Bundle(Manifest(org, now, receipts, kid, digests, key, Signature(key, Canonical(digests))), MapOf(files))
  }

  predicate AllListed(files: Dict, entries: map<string, string>) {
    forall i :: 0 <= i < |files| ==> files[i].0 in entries
  }

  /** The content of every listed name. */
  function Listed(files: Dict, entries: map<string, string>): Dict
    requires AllListed(files, entries)
  {
    if files == [] then []
    else
      assert forall i :: 0 <= i < |files[1..]| ==> files[1..][i] == files[i + 1];
      [(files[0].0, entries[files[0].0])] + Listed(files[1..], entries)
  }

  /** `verify_bundle`: a listed name without an entry raises; the key is the one the manifest carries. */
  function Verify(b: Bundle, hash: Hash): Verdict {
    var m := b.manifest;
    if !AllListed(m.files, b.entries) then Raised
    else
      var digests := Digests(Listed(m.files, b.entries), hash);
      var filesOk, signatureOk := digests == m.files, m.signature == Signature(m.publicKey, Canonical(digests));
      Verdict(filesOk && signatureOk, filesOk, signatureOk)
  }

  lemma {:induction false} DigestsAre(files: Dict, hash: Hash)
    ensures |Digests(files, hash)| == |files|
    ensures forall i :: 0 <= i < |files| ==> Digests(files, hash)[i] == (files[i].0, hash(files[i].1))
  {
    if files != [] { DigestsAre(files[1..], hash); }
  }

  lemma {:induction false} ListedIs(files: Dict, entries: map<string, string>)
    requires AllListed(files, entries)
    ensures |Listed(files, entries)| == |files|
    ensures forall i :: 0 <= i < |files| ==> Listed(files, entries)[i] == (files[i].0, entries[files[i].0])
  {
    if files != [] {
      assert forall i :: 0 <= i < |files[1..]| ==> files[1..][i] == files[i + 1];
      ListedIs(files[1..], entries);
    }
  }

  /** Reading back from the archive what was written to it. */
  lemma ListedAfterBuild(files: Dict, hash: Hash)
    requires IsDict(files)
    ensures AllListed(Digests(files, hash), MapOf(files)) && Listed(Digests(files, hash), MapOf(files)) == files
  {
    DigestsAre(files, hash);
    forall i | 0 <= i < |files| ensures files[i].0 in MapOf(files) && MapOf(files)[files[i].0] == files[i].1 {
      MapOfHas(files, files[i].0);
    }
    ListedIs(Digests(files, hash), MapOf(files));
    var read := Listed(Digests(files, hash), MapOf(files));
    assert forall i :: 0 <= i < |files| ==> read[i] == files[i];
  }

  /** Every built bundle verifies. */
  lemma BuiltBundleVerifies(files: Dict, org: string, now: string, receipts: nat, kid: string, key: string, hash: Hash)
    requires IsDict(files)
    ensures Verify(Build(files, org, now, receipts, kid, key, hash), hash) == Verdict(true, true, true)
  {
    ListedAfterBuild(files, hash);
  }

  /** No two of these contents share a digest. */
  ghost predicate NoCollision(a: Dict, b: Dict, hash: Hash) {
    forall i, k :: 0 <= i < |a| && 0 <= k < |b| && hash(a[i].1) == hash(b[k].1) ==> a[i].1 == b[k].1
  }

  ghost predicate NamesClean(files: Dict) { forall i :: 0 <= i < |files| ==> '\n' !in files[i].0 }

  lemma DigestsAreClean(files: Dict, hash: Hash)
    requires IsDict(files) && NamesClean(files) && IsDigest(hash)
    ensures IsDict(Digests(files, hash)) && Clean(Digests(files, hash))
  {
    DigestsAre(files, hash);
    forall i | 0 <= i < |files| ensures CleanPair(Digests(files, hash)[i]) {
      assert |hash(files[i].1)| == DIGEST_LENGTH;
    }
  }

  lemma SameDigestsSameFiles(a: Dict, b: Dict, hash: Hash)
    requires IsDict(a) && IsDict(b) && NoCollision(a, b, hash)
    requires IsDict(Digests(a, hash)) && IsDict(Digests(b, hash))
    ensures MapOf(Digests(a, hash)) == MapOf(Digests(b, hash)) <==> MapOf(a) == MapOf(b)
  {
    var da, db := Digests(a, hash), Digests(b, hash);
    DigestsAre(a, hash);
    DigestsAre(b, hash);
    forall k: string
      ensures (k in MapOf(da) <==> k in MapOf(a)) && (k in MapOf(db) <==> k in MapOf(b))
      ensures k in MapOf(a) && k in MapOf(b) ==> (MapOf(da)[k] == MapOf(db)[k] <==> MapOf(a)[k] == MapOf(b)[k])
    {
      MapOfHas(a, k);
      MapOfHas(b, k);
      MapOfHas(da, k);
      MapOfHas(db, k);
      SameKeys(a, hash, k);
      SameKeys(b, hash, k);
      if k in MapOf(a) && k in MapOf(b) {
        var i :| 0 <= i < |a| && a[i].0 == k;
        var j :| 0 <= j < |b| && b[j].0 == k;
        assert da[i].0 == k && db[j].0 == k;
      }
    }
  }

  lemma SameKeys(a: Dict, hash: Hash, k: string)
    requires IsDict(a) && IsDict(Digests(a, hash))
    ensures k in MapOf(Digests(a, hash)) <==> k in MapOf(a)
  {
    var da := Digests(a, hash);
    DigestsAre(a, hash);
    MapOfHas(a, k);
    MapOfHas(da, k);
    if k in MapOf(a) {
      var i :| 0 <= i < |a| && a[i].0 == k;
      assert da[i].0 == k;
    }
    if k in MapOf(da) {
      var i :| 0 <= i < |da| && da[i].0 == k;
      assert a[i].0 == k;
    }
  }

  /** Two sets of files have the same canonical string exactly when they are the same names with the
    * same contents, as long as none of their contents collide. */
  lemma SameCanonicalIffSameFiles(a: Dict, b: Dict, hash: Hash)
    requires IsDict(a) && IsDict(b) && NamesClean(a) && NamesClean(b) && IsDigest(hash) && NoCollision(a, b, hash)
    ensures Canonical(Digests(a, hash)) == Canonical(Digests(b, hash)) <==> MapOf(a) == MapOf(b)
  {
    DigestsAreClean(a, hash);
    DigestsAreClean(b, hash);
    CanonicalIsInjective(Digests(a, hash), Digests(b, hash));
    SameDigestsSameFiles(a, b, hash);
  }

  /** The whole verdict: a missing name raises; otherwise a bundle verifies if and only if every listed
    * digest is that of the entry held under its name, and the signature is the one the key in the
    * manifest makes over exactly those digests. */
  lemma VerifiedIff(b: Bundle, hash: Hash)
    ensures Verify(b, hash).Raised? <==> !AllListed(b.manifest.files, b.entries)
    ensures Verify(b, hash).Verdict? && Verify(b, hash).verified
            <==> AllListed(b.manifest.files, b.entries)
                 && DigestsMatch(b.manifest.files, b.entries, hash)
                 && b.manifest.signature == Signature(b.manifest.publicKey, Canonical(b.manifest.files))
  {
    var m := b.manifest;
    if AllListed(m.files, b.entries) {
      ListedIs(m.files, b.entries);
      var held := Listed(m.files, b.entries);
      DigestsAre(held, hash);
      if DigestsMatch(m.files, b.entries, hash) {
        assert forall i :: 0 <= i < |held| ==> Digests(held, hash)[i] == m.files[i];
        assert Digests(held, hash) == m.files;
      }
      if Digests(held, hash) == m.files {
        forall i | 0 <= i < |m.files| ensures hash(b.entries[m.files[i].0]) == m.files[i].1 {
          assert Digests(held, hash)[i] == (held[i].0, hash(held[i].1));
        }
      }
    }
  }

  /** The two parts of a verdict are independent: the files are right exactly if every listed digest is that of
    * the entry held, and the signature exactly if it is over the digests of what is held, listed or not. */
  lemma PartsOfAVerdict(b: Bundle, held: Dict, hash: Hash)
    requires AllListed(b.manifest.files, b.entries) && |held| == |b.manifest.files|
    requires forall i :: 0 <= i < |held| ==>
               held[i] == (b.manifest.files[i].0, hash(b.entries[b.manifest.files[i].0]))
    ensures var v := Verify(b, hash);
            v.Verdict? && (v.verified <==> v.filesOk && v.signatureOk)
            && (v.filesOk <==> DigestsMatch(b.manifest.files, b.entries, hash))
            && (v.signatureOk <==> b.manifest.signature == Signature(b.manifest.publicKey, Canonical(held)))
  {
    var m := b.manifest;
    ListedIs(m.files, b.entries);
    DigestsAre(Listed(m.files, b.entries), hash);
    assert Digests(Listed(m.files, b.entries), hash) == held;
    if DigestsMatch(m.files, b.entries, hash) {
      assert held == m.files;
    } else {
      var i :| 0 <= i < |held| && hash(b.entries[m.files[i].0]) != m.files[i].1;
      assert held[i] != m.files[i];
    }
  }

  ghost predicate DigestsMatch(files: Dict, entries: map<string, string>, hash: Hash)
    requires AllListed(files, entries)
  {
    forall i :: 0 <= i < |files| ==> hash(entries[files[i].0]) == files[i].1
  }

  /** Verification takes the key from the manifest, so it shows who signed only to a reader who knows
    * that key: any files at all, under any key, make a bundle that verifies under the same names. */
  lemma AnyoneCanSign(honest: Bundle, files: Dict, key: string, hash: Hash)
    requires IsDict(files)
    ensures var m := honest.manifest;
            var forged := Build(files, m.org, m.generatedAt, m.receipts, m.kid, key, hash);
            && Verify(forged, hash) == Verdict(true, true, true)
            && forged.entries == MapOf(files) && forged.manifest.publicKey == key
            && forged.manifest.org == m.org && forged.manifest.generatedAt == m.generatedAt
            && forged.manifest.receipts == m.receipts && forged.manifest.kid == m.kid
  {
    var m := honest.manifest;
    BuiltBundleVerifies(files, m.org, m.generatedAt, m.receipts, m.kid, key, hash);
  }

  /** A key signed only these canonical strings. */
  ghost predicate Issued(key: string, issued: seq<Dict>, s: Signature, hash: Hash) {
    s.key == key ==> exists k :: 0 <= k < |issued| && s.message == Canonical(Digests(issued[k], hash))
  }

  ghost predicate GoodFiles(files: Dict) { IsDict(files) && NamesClean(files) }

  lemma HeldDigests(b: Bundle, hash: Hash)
    ensures AllListed(b.manifest.files, b.entries) && DigestsMatch(b.manifest.files, b.entries, hash) ==>
              Digests(Listed(b.manifest.files, b.entries), hash) == b.manifest.files
  {
    var m := b.manifest;
    if AllListed(m.files, b.entries) && DigestsMatch(m.files, b.entries, hash) {
      ListedIs(m.files, b.entries);
      var held := Listed(m.files, b.entries);
      DigestsAre(held, hash);
      assert forall i :: 0 <= i < |held| ==> Digests(held, hash)[i] == m.files[i];
    }
  }

  /** The archive holds, under the listed names, exactly these files. */
  ghost predicate HoldsExactly(b: Bundle, files: Dict) {
    AllListed(b.manifest.files, b.entries) && MapOf(Listed(b.manifest.files, b.entries)) == MapOf(files)
  }

  /** None of the listed contents collides with one of these files. */
  ghost predicate NoneCollides(b: Bundle, files: Dict, hash: Hash) {
    AllListed(b.manifest.files, b.entries) ==> NoCollision(Listed(b.manifest.files, b.entries), files, hash)
  }

  /** To a reader who knows the key, what verification protects: a bundle under that key verifies and
    * lists no name with a newline if and only if its digests match, its signature is one the key made,
    * and what it holds is exactly the files the key signed there. */
  lemma PinnedKeyVerifiesIff(key: string, issued: seq<Dict>, b: Bundle, hash: Hash)
    requires IsDigest(hash) && forall k :: 0 <= k < |issued| ==> GoodFiles(issued[k])
    requires b.manifest.publicKey == key && Issued(key, issued, b.manifest.signature, hash)
    requires IsDict(b.manifest.files) && forall k :: 0 <= k < |issued| ==> NoneCollides(b, issued[k], hash)
    ensures var v := Verify(b, hash);
            v.Verdict? && v.verified && NamesClean(b.manifest.files)
            <==> AllListed(b.manifest.files, b.entries) && DigestsMatch(b.manifest.files, b.entries, hash)
                 && b.manifest.signature.key == key
                 && exists k :: 0 <= k < |issued| && HoldsExactly(b, issued[k])
                      && b.manifest.signature.message == Canonical(Digests(issued[k], hash))
  {
    hide Verify, Canonical, Digests, MapOf, NoCollision, IsDigest, NamesClean;
    var m := b.manifest;
    VerifiedIff(b, hash);
    HeldDigests(b, hash);
    if AllListed(m.files, b.entries) {
      HeldNames(m.files, b.entries);
      forall k | 0 <= k < |issued|
        ensures HoldsExactly(b, issued[k]) ==> NamesClean(m.files)
        ensures NamesClean(m.files) ==>
                  (Canonical(Digests(Listed(m.files, b.entries), hash)) == Canonical(Digests(issued[k], hash))
                   <==> HoldsExactly(b, issued[k]))
      {
        HeldIff(b, issued[k], hash);
      }
    }
  }

  lemma HeldIff(b: Bundle, files: Dict, hash: Hash)
    requires IsDigest(hash) && GoodFiles(files) && IsDict(b.manifest.files) && NoneCollides(b, files, hash)
    requires AllListed(b.manifest.files, b.entries)
    ensures HoldsExactly(b, files) ==> NamesClean(b.manifest.files)
    ensures NamesClean(b.manifest.files) ==>
              (Canonical(Digests(Listed(b.manifest.files, b.entries), hash)) == Canonical(Digests(files, hash))
               <==> HoldsExactly(b, files))
  {
    hide Canonical, Digests, MapOf, NoCollision, IsDigest, NamesClean;
    var held := Listed(b.manifest.files, b.entries);
    HeldNames(b.manifest.files, b.entries);
    if MapOf(held) == MapOf(files) { SameFilesCleanNames(held, files); }
    if NamesClean(held) { SameCanonicalIffSameFiles(held, files, hash); }
  }

  lemma HeldNames(files: Dict, entries: map<string, string>)
    requires AllListed(files, entries) && IsDict(files)
    ensures var held := Listed(files, entries); IsDict(held) && (NamesClean(held) <==> NamesClean(files))
  {
    ListedIs(files, entries);
    var held := Listed(files, entries);
    assert forall i :: 0 <= i < |files| ==> held[i].0 == files[i].0;
  }

  lemma SameFilesCleanNames(a: Dict, b: Dict)
    requires IsDict(a) && IsDict(b) && MapOf(a) == MapOf(b) && NamesClean(b)
    ensures NamesClean(a)
  {
    forall i | 0 <= i < |a| ensures '\n' !in a[i].0 {
      MapOfHas(a, a[i].0);
      MapOfHas(b, a[i].0);
    }
  }

  /** So of the bundles that verify under the key, exactly those whose manifest lists no name with a
    * newline hold files the key signed. */
  lemma VerifiedHoldsSignedIff(key: string, issued: seq<Dict>, b: Bundle, hash: Hash)
    requires IsDigest(hash) && forall k :: 0 <= k < |issued| ==> GoodFiles(issued[k])
    requires b.manifest.publicKey == key && Issued(key, issued, b.manifest.signature, hash)
    requires IsDict(b.manifest.files) && forall k :: 0 <= k < |issued| ==> NoneCollides(b, issued[k], hash)
    requires Verify(b, hash).Verdict? && Verify(b, hash).verified
    ensures (exists k :: 0 <= k < |issued| && HoldsExactly(b, issued[k])) <==> NamesClean(b.manifest.files)
  {
    hide Verify, Canonical, Digests, HoldsExactly, NoneCollides, NamesClean, IsDigest;
    PinnedKeyVerifiesIff(key, issued, b, hash);
    VerifiedIff(b, hash);
    forall k | 0 <= k < |issued| ensures HoldsExactly(b, issued[k]) ==> NamesClean(b.manifest.files) {
      HeldIff(b, issued[k], hash);
    }
  }

  /** The failing case: an honest bundle of two files, rewritten to one file whose name spells out the
    * other's line, verifies under the honest key and signature, and the first file is gone. */
  lemma NewlineBundleVerifies(x: string, cx: string, y: string, cy: string, org: string, now: string,
          receipts: nat, kid: string, key: string, hash: Hash)
    requires Less(x, y)
    ensures var honest := Build([(x, cx), (y, cy)], org, now, receipts, kid, key, hash);
            var name := Line((x, hash(cx))) + "\n" + y;
            var forged := Bundle(honest.manifest.(files := [(name, hash(cy))]), map[name := cy]);
            Verify(forged, hash) == Verdict(true, true, true) && x !in forged.entries
  {
    hide Canonical;
    var name := Line((x, hash(cx))) + "\n" + y;
    var two, one := [(x, cx), (y, cy)], [(name, hash(cy))];
    assert two[1..] == [(y, cy)] && two[1..][1..] == [];
    assert Digests(two[1..], hash) == [(y, hash(cy))] + Digests([], hash);
    assert Digests(two, hash) == [(x, hash(cx)), (y, hash(cy))];
    NewlineInNameCollides(x, hash(cx), y, hash(cy));
    var entries := map[name := cy];
    assert one[1..] == [] && Listed(one, entries) == [(name, cy)];
    assert [(name, cy)][1..] == [] && Digests([(name, cy)], hash) == one;
    assert |name| > |x|;
  }

  /** For one signed set of files: a bundle that carries the key and signature of a built one verifies
    * and lists no name with a newline if and only if its digests match and it holds the built files. */
  lemma CopyVerifiesIff(files: Dict, key: string, hash: Hash, b: Bundle)
    requires GoodFiles(files) && IsDigest(hash) && IsDict(b.manifest.files) && NoneCollides(b, files, hash)
    requires b.manifest.publicKey == key && b.manifest.signature == Signature(key, Canonical(Digests(files, hash)))
    ensures var v := Verify(b, hash);
            v.Verdict? && v.verified && NamesClean(b.manifest.files)
            <==> AllListed(b.manifest.files, b.entries) && DigestsMatch(b.manifest.files, b.entries, hash)
                 && HoldsExactly(b, files)
  {
    hide Verify, Canonical, Digests, HoldsExactly, NoneCollides, NamesClean, IsDigest, IsDict;
    var issued := [files];
    assert issued[0] == files;
    PinnedKeyVerifiesIff(key, issued, b, hash);
  }

  /** What it does not protect: organisation, date, receipt count, key name and unlisted archive
    * entries can all be changed without the verdict changing. */
  lemma UnsignedPartsAreFree(b: Bundle, org: string, now: string, receipts: nat, kid: string,
          extra: map<string, string>, hash: Hash)
    requires AllListed(b.manifest.files, b.entries)
    requires forall i :: 0 <= i < |b.manifest.files| ==> b.manifest.files[i].0 !in extra
    ensures var other := Bundle(b.manifest.(org := org, generatedAt := now, receipts := receipts, kid := kid),
                                b.entries + extra);
            Verify(other, hash) == Verify(b, hash)
  {
    var m := b.manifest;
    ListedIs(m.files, b.entries);
    ListedIs(m.files, b.entries + extra);
    assert Listed(m.files, b.entries) == Listed(m.files, b.entries + extra);
  }
}
