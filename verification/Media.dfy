/** Media backups: what a backup writes, what an inspection accepts, and what a
    restore leaves in the new bucket. */
module Media {
  import opened Wrappers

  type Byte = x: int | 0 <= x < 256
  type Bytes = seq<Byte>

  datatype Object = Object(bytes: Bytes, contentType: string, metadata: map<string, string>)

  type Bucket = map<string, Object>

  datatype Response = Response(bytes: Bytes, contentLength: int, headers: map<string, string>)

  datatype Record = Record(
    key: string, member: string, size: int, sha256: string, contentType: string, metadata: map<string, string>)

  datatype Manifest = Manifest(version: int, bucket: string, objects: seq<Record>)

  datatype Member = Member(name: string, isFile: bool, bytes: Bytes)

  type Archive = seq<Member>

  /** JSON text and SHA-256. */
  datatype Codec = Codec(parse: Bytes -> Option<Manifest>, write: Manifest -> Bytes, digest: Bytes -> string)

  ghost predicate WritesJson(codec: Codec) {
    forall m: Manifest :: codec.parse(codec.write(m)) == Some(m)
  }

  ghost predicate CollisionFree(codec: Codec) {
    forall a: Bytes, b: Bytes :: codec.digest(a) == codec.digest(b) ==> a == b
  }

  // ----- member names -----

  const MANIFEST := "manifest.json"

  function Decimal(n: nat): (s: string)
    ensures s != "" && Value(s) == n
  {
    if n < 10 then assert Value([Digit(n)][..0]) == 0; [Digit(n)]
    else
      var s := Decimal(n / 10) + [Digit(n % 10)];
      assert s[..|s| - 1] == Decimal(n / 10);
      s
  }

  function Digit(n: nat): char
    requires n < 10
  {
    ('0' as int + n) as char
  }

  function Value(s: string): int {
    if s == "" then 0 else Value(s[..|s| - 1]) * 10 + (s[|s| - 1] as int - '0' as int)
  }

  function Name(i: nat): string {
    "objects/" + Decimal(i)
  }

  lemma {:induction false} NamesDiffer(i: nat, j: nat)
    requires i != j
    ensures Name(i) != Name(j)
  {
    assert Name(i)[8..] == Decimal(i) && Name(j)[8..] == Decimal(j);
  }

  /** The members an archive of n objects must have. */
  function Expected(n: nat): set<string> {
    if n == 0 then {MANIFEST} else Expected(n - 1) + {Name(n - 1)}
  }

  lemma {:induction false} ExpectedHas(n: nat, name: string)
    ensures name in Expected(n) <==> name == MANIFEST || exists i :: 0 <= i < n && name == Name(i)
  {
    if n > 0 {
      ExpectedHas(n - 1, name);
    }
  }

  lemma {:induction false} ExpectedSize(n: nat)
    ensures |Expected(n)| == n + 1
  {
    if n > 0 {
      ExpectedSize(n - 1);
      ExpectedHas(n - 1, Name(n - 1));
      assert Name(n - 1)[0] == 'o' && MANIFEST[0] == 'm';
      forall i | 0 <= i < n - 1 ensures Name(i) != Name(n - 1) {
        NamesDiffer(i, n - 1);
      }
    }
  }

  lemma {:induction false} ExpectedNames(n: nat)
    ensures |Expected(n)| == n + 1
    ensures forall name :: name in Expected(n) <==> name == MANIFEST || exists i :: 0 <= i < n && name == Name(i)
  {
    ExpectedSize(n);
    forall name ensures name in Expected(n) <==> name == MANIFEST || exists i :: 0 <= i < n && name == Name(i) {
      ExpectedHas(n, name);
    }
  }

  // ----- what an inspection accepts -----

  function NamesOf(archive: Archive): set<string> {
    set i | 0 <= i < |archive| :: archive[i].name
  }

  /** `getmember`: the last member of that name. */
  function Last(archive: Archive, name: string): (m: Option<Member>)
    ensures m.Some? ==> m.value in archive && m.value.name == name
    ensures m.None? ==> name !in NamesOf(archive)
  {
    if archive == [] then None
    else if archive[|archive| - 1].name == name then Some(archive[|archive| - 1])
    else
      var rest := archive[..|archive| - 1];
      assert forall i :: 0 <= i < |archive| && archive[i].name == name ==> rest[i].name == name;
      Last(rest, name)
  }

  function ManifestIn(archive: Archive, codec: Codec): Option<Manifest> {
    var member := Last(archive, MANIFEST);
    if member.None? || !member.value.isFile then None else codec.parse(member.value.bytes)
  }

  /** The member that a record names holds what the record says. */
  predicate Holds(archive: Archive, i: nat, item: Record, codec: Codec) {
    var member := Last(archive, Name(i));
    && item.member == Name(i) && member.Some? && member.value.isFile
    && |member.value.bytes| == item.size && codec.digest(member.value.bytes) == item.sha256
  }

  predicate DistinctKeys(objects: seq<Record>) {
    forall i, j :: 0 <= i < j < |objects| ==> objects[i].key != objects[j].key
  }

  predicate AllHold(archive: Archive, objects: seq<Record>, codec: Codec) {
    forall i :: 0 <= i < |objects| ==> Holds(archive, i, objects[i], codec)
  }

  predicate Accepted(archive: Archive, codec: Codec) {
    var manifest := ManifestIn(archive, codec);
    && manifest.Some? && manifest.value.version == 1
    && DistinctKeys(manifest.value.objects) && AllHold(archive, manifest.value.objects, codec)
    && |archive| == |manifest.value.objects| + 1
    && NamesOf(archive) == Expected(|manifest.value.objects|)
  }

  /** Whether a member is there as its record says. */
  method CheckMember(archive: Archive, i: nat, item: Record, codec: Codec) returns (good: bool)
    ensures good == Holds(archive, i, item, codec)
  {
    var info := Last(archive, Name(i));
    if item.member != Name(i) || info.None? || !info.value.isFile || |info.value.bytes| != item.size {
      return false;
    }
    good := codec.digest(info.value.bytes) == item.sha256;
  }

  function KeysOf(objects: seq<Record>): set<string> {
    set i | 0 <= i < |objects| :: objects[i].key
  }

  lemma {:induction false} OneMoreKey(objects: seq<Record>, item: Record)
    ensures KeysOf(objects + [item]) == KeysOf(objects) + {item.key}
    ensures DistinctKeys(objects + [item]) <==> DistinctKeys(objects) && item.key !in KeysOf(objects)
  {
    var more := objects + [item];
    assert more[|objects|] == item;
    assert forall i :: 0 <= i < |objects| ==> more[i] == objects[i];
    if DistinctKeys(more) {
      assert forall i :: 0 <= i < |objects| ==> more[i].key != more[|objects|].key;
    }
  }

  lemma {:induction false} RepeatedKey(objects: seq<Record>, i: nat)
    requires i < |objects| && !DistinctKeys(objects[..i + 1])
    ensures !DistinctKeys(objects)
  {
    var a, b :| 0 <= a < b < i + 1 && objects[..i + 1][a].key == objects[..i + 1][b].key;
    assert objects[a].key == objects[b].key;
  }

  /** The loop of `inspect_archive` over the manifest's records. */
  method CheckObjects(archive: Archive, objects: seq<Record>, codec: Codec) returns (good: bool, expected: set<string>)
    ensures good == (DistinctKeys(objects) && AllHold(archive, objects, codec))
    ensures good ==> expected == Expected(|objects|)
  {
    expected := {MANIFEST};
    var keys := {};
    for i := 0 to |objects|
      invariant expected == Expected(i)
      invariant keys == KeysOf(objects[..i]) && DistinctKeys(objects[..i])
      invariant AllHold(archive, objects[..i], codec)
    {
      var item := objects[i];
      assert objects[..i + 1] == objects[..i] + [item];
      OneMoreKey(objects[..i], item);
      expected := expected + {Name(i)};
      if item.key in keys {
        RepeatedKey(objects, i);
        return false, expected;
      }
      keys := keys + {item.key};
      var holds := CheckMember(archive, i, item, codec);
      if !holds {
        return false, expected;
      }
    }
    assert objects[..|objects|] == objects;
    good := true;
  }

  /** `inspect_archive`; None stands for the exceptions. */
  method InspectArchive(archive: Archive, codec: Codec) returns (manifest: Option<Manifest>)
    ensures manifest == if Accepted(archive, codec) then ManifestIn(archive, codec) else None
  {
    manifest := ManifestIn(archive, codec);
    if manifest.None? || manifest.value.version != 1 {
      return None;
    }
    var good, expected := CheckObjects(archive, manifest.value.objects, codec);
    if !good {
      return None;
    }
    ExpectedNames(|manifest.value.objects|);
    if |archive| != |expected| || NamesOf(archive) != expected {
      return None;
    }
  }

  predicate DistinctNames(archive: Archive) {
    forall i, j :: 0 <= i < j < |archive| ==> archive[i].name != archive[j].name
  }

  lemma {:induction false} NamesOfSnoc(archive: Archive, m: Member)
    ensures NamesOf(archive + [m]) == NamesOf(archive) + {m.name}
  {
    var more := archive + [m];
    assert more[|archive|] == m;
    assert forall i :: 0 <= i < |archive| ==> more[i] == archive[i];
  }

  lemma {:induction false} DistinctSnoc(archive: Archive, m: Member)
    requires DistinctNames(archive) && m.name !in NamesOf(archive)
    ensures DistinctNames(archive + [m])
  {
    assert forall i :: 0 <= i < |archive| ==> archive[i].name in NamesOf(archive);
  }

  lemma {:induction false} CountedNamesAreDistinct(archive: Archive)
    ensures |NamesOf(archive)| <= |archive|
    ensures |NamesOf(archive)| == |archive| ==> DistinctNames(archive)
  {
    if archive != [] {
      var rest, last := archive[..|archive| - 1], archive[|archive| - 1];
      CountedNamesAreDistinct(rest);
      NamesOfSnoc(rest, last);
      assert archive == rest + [last];
      if |NamesOf(archive)| == |archive| {
        assert last.name !in NamesOf(rest);
        DistinctSnoc(rest, last);
      }
    }
  }

  /** An accepted archive has one member for the manifest and one for each object, no
      two alike and no others, and the objects' keys differ: members and keys are in
      bijection. */
  lemma {:induction false} AcceptedIsABijection(archive: Archive, codec: Codec)
    requires Accepted(archive, codec)
    ensures var objects := ManifestIn(archive, codec).value.objects;
            && DistinctNames(archive) && DistinctKeys(objects)
            && (forall i :: 0 <= i < |objects| ==> exists at :: 0 <= at < |archive| && archive[at].name == Name(i))
            && forall at :: 0 <= at < |archive| ==>
                 archive[at].name == MANIFEST || exists i :: 0 <= i < |objects| && archive[at].name == Name(i)
  {
    var objects := ManifestIn(archive, codec).value.objects;
    ExpectedNames(|objects|);
    CountedNamesAreDistinct(archive);
    forall i | 0 <= i < |objects| ensures exists at :: 0 <= at < |archive| && archive[at].name == Name(i) {
      assert Name(i) in NamesOf(archive);
    }
    forall at | 0 <= at < |archive|
      ensures archive[at].name == MANIFEST || exists i :: 0 <= i < |objects| && archive[at].name == Name(i)
    {
      assert archive[at].name in NamesOf(archive);
    }
  }

  /** Two accepted archives with one manifest hold the same objects: no damage to the
      contents gets past an inspection. */
  lemma {:induction false} ManifestPinsContents(a: Archive, b: Archive, codec: Codec, i: nat)
    requires CollisionFree(codec) && Accepted(a, codec) && Accepted(b, codec)
    requires ManifestIn(a, codec) == ManifestIn(b, codec) && i < |ManifestIn(a, codec).value.objects|
    ensures Last(a, Name(i)).Some? && Last(b, Name(i)).Some?
    ensures Last(a, Name(i)).value.bytes == Last(b, Name(i)).value.bytes
  {
    assert Holds(a, i, ManifestIn(a, codec).value.objects[i], codec);
    assert Holds(b, i, ManifestIn(a, codec).value.objects[i], codec);
  }

  // ----- backing up -----

  function LowerCase(s: string): (r: string)
    ensures |r| == |s|
  {
    seq(|s|, i requires 0 <= i < |s| => if 'A' <= s[i] <= 'Z' then (s[i] as int + 32) as char else s[i])
  }

  predicate IsMetadata(header: string) {
    |header| >= 11 && LowerCase(header[..11]) == "x-amz-meta-"
  }

  function MetadataOf(headers: map<string, string>): map<string, string> {
    map key | key in headers && IsMetadata(key) :: headers[key]
  }

  lemma {:induction false} OneLetter(c: char, i: nat)
    requires i < 11
    ensures (if 'A' <= c <= 'Z' then (c as int + 32) as char else c) == "x-amz-meta-"[i] <==>
            c == "x-amz-meta-"[i] || c == "X-AMZ-META-"[i]
  {
    assert "x-amz-meta-"[i] == '-' <==> "X-AMZ-META-"[i] == '-';
    assert "x-amz-meta-"[i] != '-' ==> "X-AMZ-META-"[i] as int + 32 == "x-amz-meta-"[i] as int;
  }

  /** User metadata is what stands under the prefix, letter by letter in either case. */
  lemma {:induction false} MetadataIsPrefixed(headers: map<string, string>, key: string)
    requires key in headers
    ensures key in MetadataOf(headers) <==>
              && |key| >= 11
              && forall i :: 0 <= i < 11 ==> key[i] == "x-amz-meta-"[i] || key[i] == "X-AMZ-META-"[i]
    ensures key in MetadataOf(headers) ==> MetadataOf(headers)[key] == headers[key]
  {
    if |key| >= 11 {
      var lower := LowerCase(key[..11]);
      forall i: nat | i < 11
        ensures lower[i] == "x-amz-meta-"[i] <==> key[i] == "x-amz-meta-"[i] || key[i] == "X-AMZ-META-"[i]
      {
        OneLetter(key[i], i);
      }
      assert lower == "x-amz-meta-" <==> forall i: nat :: i < 11 ==> lower[i] == "x-amz-meta-"[i];
    }
  }

  function ContentTypeOf(headers: map<string, string>): string {
    if "content-type" in headers then headers["content-type"] else "application/octet-stream"
  }

  function RecordOf(i: nat, key: string, response: Response, codec: Codec): Record {
    Record(key, Name(i), |response.bytes|, codec.digest(response.bytes),
           ContentTypeOf(response.headers), MetadataOf(response.headers))
  }

  predicate Whole(response: Response) {
    |response.bytes| == response.contentLength
  }

  predicate Distinct(keys: seq<string>) {
    forall i, j :: 0 <= i < j < |keys| ==> keys[i] != keys[j]
  }

  /** `backup`: the listed keys and the store's answers to them, archived. */
  method Backup(bucket: string, listing: seq<string>, responses: seq<Response>, codec: Codec) returns (result: Option<Archive>)
    requires |responses| == |listing| && WritesJson(codec)
    ensures result.Some? <==> Distinct(listing) && forall i :: 0 <= i < |responses| ==> Whole(responses[i])
    ensures result.Some? ==>
              var archive := result.value;
              && Accepted(archive, codec)
              && |ManifestIn(archive, codec).value.objects| == |listing|
              && forall i :: 0 <= i < |listing| ==>
                   && ManifestIn(archive, codec).value.objects[i] == RecordOf(i, listing[i], responses[i], codec)
                   && Last(archive, Name(i)).value.bytes == responses[i].bytes
  {
    var archive: Archive, records: seq<Record> := [], [];
    for i := 0 to |listing|
      invariant |archive| == |records| == i
      invariant forall j :: 0 <= j < i ==> Whole(responses[j])
      invariant forall j :: 0 <= j < i ==> records[j] == RecordOf(j, listing[j], responses[j], codec)
      invariant forall j :: 0 <= j < i ==> archive[j] == Member(Name(j), true, responses[j].bytes)
    {
      var response := responses[i];
      if |response.bytes| != response.contentLength {
        return None;
      }
      var member := "objects/" + Decimal(|records|);
      archive := archive + [Member(member, true, response.bytes)];
      records := records + [Record(listing[i], member, |response.bytes|, codec.digest(response.bytes),
                                   ContentTypeOf(response.headers), MetadataOf(response.headers))];
    }
    var manifest := Manifest(1, bucket, records);
    archive := archive + [Member(MANIFEST, true, codec.write(manifest))];
    WrittenIsAccepted(archive, manifest, codec);
    var inspected := InspectArchive(archive, codec);
    assert DistinctKeys(records) <==> Distinct(listing);
    if inspected.None? {
      return None;
    }
    return Some(archive);
  }

  /** A written archive is accepted exactly when no key is written twice. */
  lemma {:induction false} WrittenIsAccepted(archive: Archive, manifest: Manifest, codec: Codec)
    requires WritesJson(codec) && manifest.version == 1 && |archive| == |manifest.objects| + 1
    requires archive[|archive| - 1] == Member(MANIFEST, true, codec.write(manifest))
    requires forall i :: 0 <= i < |manifest.objects| ==>
               var item, m := manifest.objects[i], archive[i];
               && m.isFile && item.member == m.name == Name(i)
               && item.size == |m.bytes| && item.sha256 == codec.digest(m.bytes)
    ensures ManifestIn(archive, codec) == Some(manifest)
    ensures Accepted(archive, codec) <==> DistinctKeys(manifest.objects)
    ensures forall i :: 0 <= i < |manifest.objects| ==> Last(archive, Name(i)) == Some(archive[i])
  {
    WrittenMembers(archive, |manifest.objects|);
  }

  predicate IsWritten(archive: Archive, n: nat) {
    && |archive| == n + 1 && archive[n].name == MANIFEST
    && forall i :: 0 <= i < n ==> archive[i].name == Name(i)
  }

  lemma {:induction false} OneMember(archive: Archive, n: nat, i: nat)
    requires IsWritten(archive, n) && i < n
    ensures Last(archive, Name(i)) == Some(archive[i])
  {
    forall j | 0 <= j < n && j != i ensures archive[j].name != Name(i) {
      NamesDiffer(i, j);
    }
    assert Name(i)[0] == 'o' && MANIFEST[0] == 'm';
    assert archive[i].name == Name(i);
  }

  lemma {:induction false} WrittenNames(archive: Archive, n: nat)
    requires IsWritten(archive, n)
    ensures NamesOf(archive) == Expected(n)
  {
    ExpectedNames(n);
    forall name ensures name in NamesOf(archive) <==> name in Expected(n) {
      if name in NamesOf(archive) {
        var i :| 0 <= i < |archive| && archive[i].name == name;
        assert i == n || name == Name(i);
      }
      if name in Expected(n) && name != MANIFEST {
        var i :| 0 <= i < n && name == Name(i);
        assert archive[i].name == name;
      }
      assert archive[n].name == MANIFEST;
    }
  }

  /** In an archive as a backup writes it, every name leads to its own member. */
  lemma {:induction false} WrittenMembers(archive: Archive, n: nat)
    requires IsWritten(archive, n)
    ensures Last(archive, MANIFEST) == Some(archive[n])
    ensures forall i :: 0 <= i < n ==> Last(archive, Name(i)) == Some(archive[i])
    ensures NamesOf(archive) == Expected(n)
  {
    forall i | 0 <= i < n ensures Last(archive, Name(i)) == Some(archive[i]) {
      OneMember(archive, n, i);
    }
    WrittenNames(archive, n);
  }

  // ----- restoring -----

  /** A store's answer for an object it has; user metadata comes back as headers. */
  predicate Honest(response: Response, o: Object) {
    && response.bytes == o.bytes && ContentTypeOf(response.headers) == o.contentType
    && MetadataOf(response.headers) == MetadataOf(o.metadata)
  }

  predicate IsPut(before: map<string, Bucket>, name: string, key: string, stored: Object, after: map<string, Bucket>)
    requires name in before
  {
    after == before[name := before[name][key := stored]]
  }

  /** The media store. Any call may fail, and what it writes may differ from what it
      was given, unless it is faithful; what it reads it reads right. */
  class Store {
    const faithful: bool
    var buckets: map<string, Bucket>

    constructor (faithful: bool, buckets: map<string, Bucket>)
      ensures this.faithful == faithful && this.buckets == buckets
    {
      this.faithful, this.buckets := faithful, buckets;
    }

    method MakeBucket(name: string) returns (ok: bool)
      modifies this`buckets
      ensures ok ==> name !in old(buckets) && buckets == old(buckets)[name := map[]]
      ensures !ok ==> buckets == old(buckets)
      ensures faithful && name !in old(buckets) ==> ok
    {
      var fails: bool := *;
      ok := name !in buckets && (faithful || !fails);
      if ok {
        buckets := buckets[name := map[]];
      }
    }

    method PutObject(name: string, key: string, o: Object) returns (ok: bool, ghost stored: Object)
      requires name in buckets
      modifies this`buckets
      ensures IsPut(old(buckets), name, key, stored, buckets)
      ensures faithful ==> ok && stored == o
    {
      var written: Object := *;
      ok := *;
      if faithful {
        written, ok := o, true;
      }
      buckets := buckets[name := buckets[name][key := written]];
      stored := written;
    }

    method GetObject(name: string, key: string) returns (response: Option<Response>)
      requires name in buckets && key in buckets[name]
      ensures response.Some? ==> Honest(response.value, buckets[name][key]) && "content-type" in response.value.headers
      ensures faithful ==> response.Some?
    {
      var o := buckets[name][key];
      var headers := o.metadata["content-type" := o.contentType];
      ContentTypeIsNotMetadata(o);
      var answered: bool := *;
      response := if answered || faithful then Some(Response(o.bytes, |o.bytes|, headers)) else None;
    }
  }

  lemma {:induction false} ContentTypeIsNotMetadata(o: Object)
    ensures MetadataOf(o.metadata["content-type" := o.contentType]) == MetadataOf(o.metadata)
  {
    assert LowerCase("content-type"[..11])[0] == 'c';
    assert !IsMetadata("content-type");
  }

  /** What the read-back check knows of a restored object. */
  predicate Verified(o: Object, item: Record, codec: Codec) {
    && codec.digest(o.bytes) == item.sha256 && o.contentType == item.contentType
    && forall key :: key in item.metadata && IsMetadata(key) ==> key in o.metadata && o.metadata[key] == item.metadata[key]
  }

  predicate HeadersMatch(headers: map<string, string>, metadata: map<string, string>) {
    forall key :: key in metadata ==> key in headers && headers[key] == metadata[key]
  }

  datatype Restoration = Refused | Ready | Broken | Restored

  function ObjectFor(archive: Archive, item: Record): Object {
    var member := Last(archive, item.member);
    Object(if member.Some? then member.value.bytes else [], item.contentType, item.metadata)
  }

  /** An object as a restore leaves it: as verified, and as archived if the store
      writes what it is given. */
  predicate Returned(o: Object, archive: Archive, item: Record, codec: Codec, faithful: bool) {
    Verified(o, item, codec) && (faithful ==> o == ObjectFor(archive, item))
  }

  /** The bucket holds these records' objects and nothing else. */
  predicate Carries(bucket: Bucket, archive: Archive, objects: seq<Record>, codec: Codec, faithful: bool) {
    && bucket.Keys == KeysOf(objects)
    && forall i :: 0 <= i < |objects| ==>
         objects[i].key in bucket && Returned(bucket[objects[i].key], archive, objects[i], codec, faithful)
  }

  /** Every other bucket is as it was. */
  predicate OnlyTarget(before: map<string, Bucket>, after: map<string, Bucket>, target: string) {
    before.Keys <= after.Keys <= before.Keys + {target} &&
    forall name :: name in before && name != target ==> after[name] == before[name]
  }

  /** The archive has the record's bytes, and its metadata is all under the prefix. */
  predicate Restorable(archive: Archive, item: Record, codec: Codec) {
    codec.digest(ObjectFor(archive, item).bytes) == item.sha256 && MetadataOf(item.metadata) == item.metadata
  }

  predicate AllRestorable(archive: Archive, objects: seq<Record>, codec: Codec) {
    forall i :: 0 <= i < |objects| ==> Restorable(archive, objects[i], codec)
  }

  /** Writes one object and reads it back. */
  method RestoreObject(archive: Archive, item: Record, codec: Codec, target: string, store: Store) returns (ok: bool, ghost stored: Object)
    requires target in store.buckets
    modifies store`buckets
    ensures IsPut(old(store.buckets), target, item.key, stored, store.buckets)
    ensures ok ==> Returned(stored, archive, item, codec, store.faithful)
    ensures store.faithful && Restorable(archive, item, codec) ==> ok
  {
    ok, stored := store.PutObject(target, item.key, ObjectFor(archive, item));
    if !ok {
      return;
    }
    var response := store.GetObject(target, item.key);
    if response.None? {
      ok := false;
      return;
    }
    var headers := response.value.headers;
    ok := && codec.digest(response.value.bytes) == item.sha256
          && "content-type" in headers && headers["content-type"] == item.contentType
          && HeadersMatch(headers, item.metadata);
    if ok {
      ReadBackVerifies(response.value, stored, item, codec);
    } else if store.faithful && Restorable(archive, item, codec) {
      FaithfulHeadersMatch(headers, item.metadata);
    }
  }

  lemma {:induction false} FaithfulHeadersMatch(headers: map<string, string>, metadata: map<string, string>)
    requires MetadataOf(headers) == MetadataOf(metadata) && MetadataOf(metadata) == metadata
    ensures HeadersMatch(headers, metadata)
  {
    forall key | key in metadata ensures key in headers && headers[key] == metadata[key] {
      assert key in MetadataOf(headers);
    }
  }

  lemma {:induction false} ReadBackVerifies(response: Response, stored: Object, item: Record, codec: Codec)
    requires Honest(response, stored) && codec.digest(response.bytes) == item.sha256
    requires ContentTypeOf(response.headers) == item.contentType && HeadersMatch(response.headers, item.metadata)
    ensures Verified(stored, item, codec)
  {
    forall key | key in item.metadata && IsMetadata(key)
      ensures key in stored.metadata && stored.metadata[key] == item.metadata[key]
    {
      assert key in MetadataOf(response.headers);
      assert key in MetadataOf(stored.metadata);
    }
  }

  /** The loop of `restore` over the manifest's records. */
  method RestoreObjects(archive: Archive, objects: seq<Record>, codec: Codec, target: string, store: Store) returns (ok: bool)
    requires DistinctKeys(objects) && target in store.buckets && store.buckets[target] == map[]
    modifies store`buckets
    ensures target in store.buckets && OnlyTarget(old(store.buckets), store.buckets, target)
    ensures ok ==> Carries(store.buckets[target], archive, objects, codec, store.faithful)
    ensures store.faithful && AllRestorable(archive, objects, codec) ==> ok
  {
    for i := 0 to |objects|
      invariant target in store.buckets && OnlyTarget(old(store.buckets), store.buckets, target)
      invariant Carries(store.buckets[target], archive, objects[..i], codec, store.faithful)
    {
      ghost var before := store.buckets[target];
      var done, stored := RestoreObject(archive, objects[i], codec, target, store);
      if !done {
        return false;
      }
      CarriesOneMore(before, archive, objects, i, stored, codec, store.faithful);
    }
    assert objects[..|objects|] == objects;
    ok := true;
  }

  lemma {:induction false} CarriesOneMore(bucket: Bucket, archive: Archive, objects: seq<Record>, i: nat, stored: Object, codec: Codec, faithful: bool)
    requires i < |objects| && DistinctKeys(objects)
    requires Carries(bucket, archive, objects[..i], codec, faithful)
    requires Returned(stored, archive, objects[i], codec, faithful)
    ensures Carries(bucket[objects[i].key := stored], archive, objects[..i + 1], codec, faithful)
  {
    var item := objects[i];
    assert objects[..i + 1] == objects[..i] + [item];
    OneMoreKey(objects[..i], item);
    assert forall j :: 0 <= j < i ==> objects[..i][j] == objects[j] && objects[j].key != item.key;
  }

  /** `restore`. The live bucket is refused, an existing bucket is refused, and
      success means every object was read back as recorded. */
  method Restore(archive: Archive, codec: Codec, target: string, source: string, checkOnly: bool, store: Store)
    returns (result: Restoration)
    modifies store`buckets
    ensures result == Refused <==> !Accepted(archive, codec) || target == source || target in old(store.buckets)
    ensures result == Ready <==> result != Refused && checkOnly
    ensures result in {Refused, Ready} ==> store.buckets == old(store.buckets)
    ensures OnlyTarget(old(store.buckets), store.buckets, target)
    ensures result == Restored ==>
              && target in store.buckets
              && Carries(store.buckets[target], archive, ManifestIn(archive, codec).value.objects, codec, store.faithful)
    ensures (result == Broken && store.faithful) ==> !AllRestorable(archive, ManifestIn(archive, codec).value.objects, codec)
  {
    var manifest := InspectArchive(archive, codec);
    if manifest.None? || target == source || target in store.buckets {
      return Refused;
    }
    if checkOnly {
      return Ready;
    }
    var made := store.MakeBucket(target);
    if !made {
      return Broken;
    }
    var ok := RestoreObjects(archive, manifest.value.objects, codec, target, store);
    result := if ok then Restored else Broken;
  }

  // ----- there and back -----

  predicate IsUserMetadata(o: Object) {
    MetadataOf(o.metadata) == o.metadata
  }

  /** The listing has each key of the bucket once, and each answer is the object's. */
  ghost predicate Backs(bucket: Bucket, listing: seq<string>, responses: seq<Response>) {
    && |responses| == |listing| && Distinct(listing)
    && (forall key :: key in bucket <==> key in listing)
    && forall i :: 0 <= i < |listing| ==>
         && listing[i] in bucket && IsUserMetadata(bucket[listing[i]])
         && Honest(responses[i], bucket[listing[i]]) && Whole(responses[i])
  }

  predicate SameOrMore(o: Object, r: Object) {
    && r.bytes == o.bytes && r.contentType == o.contentType
    && forall header :: header in o.metadata ==> header in r.metadata && r.metadata[header] == o.metadata[header]
  }

  /** A bucket that was backed up and restored comes back: exactly, from a faithful
      store; from any other store a restore that reports success has every key and no
      other, the same bytes and content types, and no metadata lost. */
  method BackUpThenRestore(
    name: string, bucket: Bucket, listing: seq<string>, responses: seq<Response>, codec: Codec, target: string, store: Store)
    returns (result: Restoration)
    requires WritesJson(codec) && CollisionFree(codec)
    requires Backs(bucket, listing, responses)
    requires target != name && target !in store.buckets
    modifies store`buckets
    ensures store.faithful ==> result == Restored
    ensures result == Restored ==> target in store.buckets && store.buckets[target].Keys == bucket.Keys
    ensures result == Restored ==> forall key :: key in bucket ==>
              SameOrMore(bucket[key], store.buckets[target][key])
    ensures result == Restored && store.faithful ==> store.buckets[target] == bucket
  {
    var archive := Backup(name, listing, responses, codec);
    result := Restore(archive.value, codec, target, name, false, store);
    ghost var objects := ManifestIn(archive.value, codec).value.objects;
    forall i | 0 <= i < |listing|
      ensures objects[i] == RecordOf(i, listing[i], responses[i], codec)
      ensures ObjectFor(archive.value, objects[i]) == bucket[listing[i]]
      ensures Restorable(archive.value, objects[i], codec)
    {
      assert Last(archive.value, Name(i)).value.bytes == responses[i].bytes;
      assert Holds(archive.value, i, objects[i], codec);
    }
    assert AllRestorable(archive.value, objects, codec);
    if result == Restored {
      ComesBack(bucket, store.buckets[target], listing, responses, archive.value, objects, codec, store.faithful);
    }
  }

  lemma {:induction false} OneComesBack(
    o: Object, r: Object, i: nat, key: string, response: Response, archive: Archive, codec: Codec, faithful: bool)
    requires CollisionFree(codec) && IsUserMetadata(o) && Honest(response, o)
    requires ObjectFor(archive, RecordOf(i, key, response, codec)) == o
    requires Returned(r, archive, RecordOf(i, key, response, codec), codec, faithful)
    ensures SameOrMore(o, r) && (faithful ==> r == o)
  {
    assert codec.digest(r.bytes) == codec.digest(o.bytes);
    forall header | header in o.metadata ensures header in r.metadata && r.metadata[header] == o.metadata[header] {
      assert header in MetadataOf(o.metadata);
    }
  }

  lemma {:induction false} SameKeys(objects: seq<Record>, listing: seq<string>)
    requires |objects| == |listing| && forall i :: 0 <= i < |listing| ==> objects[i].key == listing[i]
    ensures forall key :: key in KeysOf(objects) <==> key in listing
  {
    forall key | key in listing ensures key in KeysOf(objects) {
      var i :| 0 <= i < |listing| && listing[i] == key;
      assert objects[i].key == key;
    }
  }

  lemma {:induction false} ComesBack(
    bucket: Bucket, restored: Bucket, listing: seq<string>, responses: seq<Response>, archive: Archive,
    objects: seq<Record>, codec: Codec, faithful: bool)
    requires CollisionFree(codec) && Backs(bucket, listing, responses)
    requires |objects| == |listing| && Carries(restored, archive, objects, codec, faithful)
    requires forall i :: 0 <= i < |listing| ==> objects[i] == RecordOf(i, listing[i], responses[i], codec)
    requires forall i :: 0 <= i < |listing| ==> ObjectFor(archive, objects[i]) == bucket[listing[i]]
    ensures restored.Keys == bucket.Keys
    ensures forall key :: key in bucket ==> SameOrMore(bucket[key], restored[key])
    ensures faithful ==> restored == bucket
  {
    SameKeys(objects, listing);
    forall key | key in bucket
      ensures SameOrMore(bucket[key], restored[key]) && (faithful ==> restored[key] == bucket[key])
    {
      var i :| 0 <= i < |listing| && listing[i] == key;
      OneKeyComesBack(bucket, restored, listing, responses, archive, objects, codec, faithful, i);
    }
  }

  lemma {:induction false} OneKeyComesBack(
    bucket: Bucket, restored: Bucket, listing: seq<string>, responses: seq<Response>, archive: Archive,
    objects: seq<Record>, codec: Codec, faithful: bool, i: nat)
    requires CollisionFree(codec) && Backs(bucket, listing, responses) && i < |listing| == |objects|
    requires Carries(restored, archive, objects, codec, faithful)
    requires objects[i] == RecordOf(i, listing[i], responses[i], codec)
    requires ObjectFor(archive, objects[i]) == bucket[listing[i]]
    ensures listing[i] in restored && SameOrMore(bucket[listing[i]], restored[listing[i]])
    ensures faithful ==> restored[listing[i]] == bucket[listing[i]]
  {
    var key := listing[i];
    assert objects[i].key == key && Returned(restored[objects[i].key], archive, objects[i], codec, faithful);
    OneComesBack(bucket[key], restored[key], i, key, responses[i], archive, codec, faithful);
  }
}
