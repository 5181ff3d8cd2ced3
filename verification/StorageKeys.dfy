/** Storage keys of uploads: how they are minted, and which of them the private-document
    patterns accept. */
module StorageKeys {
  import opened Wrappers
  import Orders

  datatype Purpose =
    | KycNic | KycSelfie | KycAddress | KycPolice | KycLicense | KycSkill
    | TaskPhoto | CompletionPhoto | ProfilePhoto

  const PRIVATE_PURPOSES: set<Purpose> := {KycNic, KycSelfie, KycAddress, KycPolice, KycLicense, KycSkill}
  const CONTENT_TYPE_EXT: map<string, string> :=
    map["image/jpeg" := "jpg", "image/png" := "png", "image/webp" := "webp"]
  const SUBTYPES: seq<string> := ["nic", "selfie", "address", "police", "license", "skill"]
  const EXTENSIONS: seq<string> := ["jpg", "png", "webp"]

  function PurposePrefix(p: Purpose): string {
    match p
    case KycNic => "kyc/nic"
    case KycSelfie => "kyc/selfie"
    case KycAddress => "kyc/address"
    case KycPolice => "kyc/police"
    case KycLicense => "kyc/license"
    case KycSkill => "kyc/skill"
    case TaskPhoto => "tasks/photos"
    case CompletionPhoto => "tasks/completion"
    case ProfilePhoto => "profiles"
  }

  // --- Anchored patterns ---

  predicate IsKeyChar(c: char) {
    'A' <= c <= 'Z' || 'a' <= c <= 'z' || '0' <= c <= '9' || c == '-'
  }

  /** `[A-Za-z0-9-]{1,64}` */
  predicate IsSegment(s: string) {
    1 <= |s| <= 64 && forall i :: 0 <= i < |s| ==> IsKeyChar(s[i])
  }

  datatype Piece = OneOf(words: seq<string>) | Segment

  predicate PieceMatches(p: Piece, s: string) {
    match p
    case OneOf(words) => s in words
    case Segment => IsSegment(s)
  }

  /** The whole of `s` is a concatenation of matches of the pieces. */
  predicate Matches(pattern: seq<Piece>, s: string)
    decreases |pattern|
  {
    if pattern == [] then s == ""
    else exists i :: 0 <= i <= |s| && PieceMatches(pattern[0], s[..i]) && Matches(pattern[1..], s[i..])
  }

  function KycPattern(subtypes: seq<string>): seq<Piece> {
    [OneOf(["kyc/"]), OneOf(subtypes), OneOf(["/"]), Segment, OneOf(["/"]), Segment, OneOf(["."]), OneOf(EXTENSIONS)]
  }

  function KycKeyPattern(subtype: string): seq<Piece> {
    KycPattern([subtype])
  }

  const ANY_KYC_KEY_PATTERN: seq<Piece> := KycPattern(SUBTYPES)

  // --- Keys ---

  function Mint(p: Purpose, user: string, uuid: string, ext: string): string {
    PurposePrefix(p) + "/" + user + "/" + uuid + "." + ext
  }

  /** `x` put in front of the text whose parts are `parts`. */
  function Prepend(x: char, c: char, parts: seq<string>): (longer: seq<string>)
    requires |parts| >= 1
    ensures |longer| >= 1
  {
    if x == c then [""] + parts else [[x] + parts[0]] + parts[1..]
  }

  /** What comes before, between and after the occurrences of `c`. */
  function Split(s: string, c: char): (parts: seq<string>)
    ensures |parts| >= 1
  {
    if s == "" then [""] else Prepend(s[0], c, Split(s[1..], c))
  }

  predicate KycKeyBelongsTo(key: string, user: string) {
    Matches(ANY_KYC_KEY_PATTERN, key) && |Split(key, '/')| > 2 && Split(key, '/')[2] == user
  }

  datatype Error = BadRequest
  datatype Presigned = Presigned(key: string, isPrivate: bool)

  function Presign(user: string, purpose: Purpose, contentType: string, uuid: string): Presigned
    requires contentType in CONTENT_TYPE_EXT
  {
    Presigned(Mint(purpose, user, uuid, CONTENT_TYPE_EXT[contentType]), purpose in PRIVATE_PURPOSES)
  }

  function PresignRead(key: string): Result<string, Error> {
    if Matches(ANY_KYC_KEY_PATTERN, key) then Ok(key) else Err(BadRequest)
  }

  // --- Splitting ---

  lemma PrependConcat(x: char, c: char, p: seq<string>, q: seq<string>)
    requires |p| >= 1
    ensures Prepend(x, c, p + q) == Prepend(x, c, p) + q
  {
    if x == c {
      assert [""] + (p + q) == [""] + p + q;
    } else {
      assert (p + q)[1..] == p[1..] + q && (p + q)[0] == p[0];
    }
  }

  lemma {:induction false} SplitConcat(a: string, c: char, b: string)
    ensures Split(a + [c] + b, c) == Split(a, c) + Split(b, c)
  {
    var s := a + [c] + b;
    if a == "" {
      assert s[0] == c && s[1..] == b;
    } else {
      hide Prepend;
      SplitConcat(a[1..], c, b);
      assert s[0] == a[0] && s[1..] == a[1..] + [c] + b;
      PrependConcat(a[0], c, Split(a[1..], c), Split(b, c));
    }
  }

  lemma {:induction false} SplitWhole(a: string, c: char)
    ensures c !in a <==> |Split(a, c)| == 1
    ensures |Split(a, c)| == 1 ==> Split(a, c) == [a]
  {
    if a == "" {
    } else {
      SplitWhole(a[1..], c);
      assert a == [a[0]] + a[1..];
    }
  }

  // --- What the patterns accept ---

  datatype Key = Key(subtype: string, user: string, name: string, ext: string)

  predicate WellFormed(k: Key, subtypes: seq<string>) {
    k.subtype in subtypes && IsSegment(k.user) && IsSegment(k.name) && k.ext in EXTENSIONS
  }

  function Text(k: Key): string {
    "kyc/" + k.subtype + "/" + k.user + "/" + k.name + "." + k.ext
  }

  function Concat(parts: seq<string>): string {
    if parts == [] then "" else parts[0] + Concat(parts[1..])
  }

  ghost predicate Fits(pattern: seq<Piece>, parts: seq<string>) {
    |parts| == |pattern| && forall i :: 0 <= i < |parts| ==> PieceMatches(pattern[i], parts[i])
  }

  lemma {:induction false} MatchesParts(pattern: seq<Piece>, parts: seq<string>)
    requires Fits(pattern, parts)
    ensures Matches(pattern, Concat(parts))
  {
    if parts == [] {
    } else {
      MatchesParts(pattern[1..], parts[1..]);
      var s := Concat(parts);
      assert s[..|parts[0]|] == parts[0] && s[|parts[0]|..] == Concat(parts[1..]);
    }
  }

  lemma {:induction false} PartsOfMatch(pattern: seq<Piece>, s: string) returns (parts: seq<string>)
    requires Matches(pattern, s)
    ensures Fits(pattern, parts) && Concat(parts) == s
  {
    if pattern == [] {
      parts := [];
    } else {
      var i :| 0 <= i <= |s| && PieceMatches(pattern[0], s[..i]) && Matches(pattern[1..], s[i..]);
      var rest := PartsOfMatch(pattern[1..], s[i..]);
      parts := [s[..i]] + rest;
      assert s[..i] + s[i..] == s;
    }
  }

  function PartsOf(k: Key): seq<string> {
    ["kyc/", k.subtype, "/", k.user, "/", k.name, ".", k.ext]
  }

  lemma ConcatIsText(k: Key)
    ensures Concat(PartsOf(k)) == Text(k)
  {
    var parts := PartsOf(k);
    assert Concat(parts[7..]) == k.ext;
    assert Concat(parts[6..]) == "." + k.ext;
    assert Concat(parts[5..]) == k.name + ("." + k.ext);
    assert Concat(parts[4..]) == "/" + (k.name + ("." + k.ext));
    assert Concat(parts[3..]) == k.user + ("/" + (k.name + ("." + k.ext)));
    assert Concat(parts[2..]) == "/" + (k.user + ("/" + (k.name + ("." + k.ext))));
    assert Concat(parts[1..]) == k.subtype + ("/" + (k.user + ("/" + (k.name + ("." + k.ext)))));
  }

  /** A pattern accepts exactly the texts of the well-formed keys of its subtypes. */
  lemma PatternIsText(key: string, subtypes: seq<string>)
    ensures Matches(KycPattern(subtypes), key) <==> exists k :: WellFormed(k, subtypes) && Text(k) == key
  {
    if Matches(KycPattern(subtypes), key) {
      var parts := PartsOfMatch(KycPattern(subtypes), key);
      var k := Key(parts[1], parts[3], parts[5], parts[7]);
      assert forall i :: 0 <= i < 8 ==> PieceMatches(KycPattern(subtypes)[i], parts[i]);
      assert parts == PartsOf(k);
      ConcatIsText(k);
    }
    forall k | WellFormed(k, subtypes) && Text(k) == key ensures Matches(KycPattern(subtypes), key) {
      ConcatIsText(k);
      MatchesParts(KycPattern(subtypes), PartsOf(k));
    }
  }

  lemma SegmentHasNone(s: string, c: char)
    requires IsSegment(s) && !IsKeyChar(c)
    ensures c !in s
  {
  }

  lemma WordsHaveNone()
    ensures forall s :: s in SUBTYPES ==> '/' !in s
    ensures forall e :: e in EXTENSIONS ==> '/' !in e && '.' !in e
  {
  }

  /** Three slashes and a dot take a key apart again. */
  lemma SplitKey(subtype: string, user: string, file: string)
    ensures Split("kyc/" + subtype + "/" + user + "/" + file, '/')
            == ["kyc"] + Split(subtype, '/') + Split(user, '/') + Split(file, '/')
  {
    hide Split;
    var tail := user + "/" + file;
    assert "kyc/" + subtype + "/" + user + "/" + file == "kyc" + ['/'] + (subtype + ['/'] + tail);
    SplitConcat("kyc", '/', subtype + ['/'] + tail);
    SplitConcat(subtype, '/', tail);
    SplitConcat(user, '/', file);
    SplitWhole("kyc", '/');
    assert tail == user + ['/'] + file;
  }

  lemma SplitText(k: Key)
    requires WellFormed(k, SUBTYPES)
    ensures Split(Text(k), '/') == ["kyc", k.subtype, k.user, k.name + "." + k.ext]
    ensures Split(k.name + "." + k.ext, '.') == [k.name, k.ext]
  {
    hide Split, IsSegment;
    var file := k.name + "." + k.ext;
    WordsHaveNone();
    SegmentHasNone(k.user, '/');
    SegmentHasNone(k.name, '/');
    SegmentHasNone(k.name, '.');
    assert Text(k) == "kyc/" + k.subtype + "/" + k.user + "/" + file;
    SplitKey(k.subtype, k.user, file);
    SplitWhole(k.subtype, '/');
    SplitWhole(k.user, '/');
    SplitWhole(file, '/');
    SplitFile(k.name, k.ext);
    SplitWhole(k.name, '.');
  }

  lemma SplitFile(name: string, ext: string)
    requires ext in EXTENSIONS
    ensures Split(name + "." + ext, '.') == Split(name, '.') + [ext]
  {
    hide Split;
    WordsHaveNone();
    SplitConcat(name, '.', ext);
    SplitWhole(ext, '.');
    assert name + ['.'] + ext == name + "." + ext;
  }

  /** A key that the patterns accept has one subtype, one user, one name and one extension. */
  lemma KeysAreUnique(a: Key, b: Key)
    requires WellFormed(a, SUBTYPES) && WellFormed(b, SUBTYPES) && Text(a) == Text(b)
    ensures a == b
  {
    SplitText(a);
    SplitText(b);
    var x := Split(Text(a), '/');
    assert x[1] == a.subtype == b.subtype && x[2] == a.user == b.user;
    var f := Split(x[3], '.');
    assert f[0] == a.name == b.name && f[1] == a.ext == b.ext;
  }

  /** The pattern of one subtype accepts exactly the keys of that subtype among those that
      the general pattern accepts. */
  lemma SubtypePattern(key: string, subtype: string)
    requires subtype in SUBTYPES
    ensures Matches(KycKeyPattern(subtype), key) <==>
              Matches(ANY_KYC_KEY_PATTERN, key) && |Split(key, '/')| > 1 && Split(key, '/')[1] == subtype
  {
    hide Matches;
    PatternIsText(key, [subtype]);
    PatternIsText(key, SUBTYPES);
    forall k | WellFormed(k, SUBTYPES) && Text(k) == key
      ensures WellFormed(k, [subtype]) <==> |Split(key, '/')| > 1 && Split(key, '/')[1] == subtype
    {
      SplitText(k);
    }
    assert forall k :: WellFormed(k, [subtype]) ==> WellFormed(k, SUBTYPES);
  }

  /** The ownership test holds exactly for the user in the key. */
  lemma BelongsToOwner(key: string, user: string)
    ensures KycKeyBelongsTo(key, user) <==> exists k :: WellFormed(k, SUBTYPES) && Text(k) == key && k.user == user
  {
    hide Matches;
    PatternIsText(key, SUBTYPES);
    forall k | WellFormed(k, SUBTYPES) && Text(k) == key
      ensures KycKeyBelongsTo(key, user) <==> k.user == user
    {
      SplitText(k);
    }
  }

  // --- What minting makes ---

  function SubtypeOf(p: Purpose): string
    requires p in PRIVATE_PURPOSES
    ensures SubtypeOf(p) in SUBTYPES
  {
    PurposePrefix(p)[4..]
  }

  lemma PrivatePrefix(p: Purpose)
    requires p in PRIVATE_PURPOSES
    ensures PurposePrefix(p) == "kyc/" + SubtypeOf(p)
  {
  }

  /** A public key does not begin with the private directory. */
  lemma PublicPrefix(p: Purpose, rest: string)
    requires p !in PRIVATE_PURPOSES
    ensures (PurposePrefix(p) + rest)[0] != 'k'
  {
  }

  /** The only decomposition a minted key can have is the one it was made from. */
  lemma MintedFrom(p: Purpose, user: string, uuid: string, ext: string, k: Key)
    requires p in PRIVATE_PURPOSES && ext in EXTENSIONS
    requires WellFormed(k, SUBTYPES) && Text(k) == Mint(p, user, uuid, ext)
    ensures k == Key(SubtypeOf(p), user, uuid, ext)
  {
    hide Split, IsSegment, PurposePrefix, SubtypeOf;
    var file := uuid + "." + ext;
    PrivatePrefix(p);
    WordsHaveNone();
    SplitText(k);
    assert Mint(p, user, uuid, ext) == "kyc/" + SubtypeOf(p) + "/" + user + "/" + file;
    SplitKey(SubtypeOf(p), user, file);
    SplitWhole(SubtypeOf(p), '/');
    assert |Split(user, '/')| == 1 && |Split(file, '/')| == 1;
    SplitWhole(user, '/');
    SplitWhole(file, '/');
    var x := Split(Text(k), '/');
    assert x[1] == SubtypeOf(p) && x[2] == user && x[3] == file;
    SplitFile(uuid, ext);
    assert |Split(uuid, '.')| == 1;
    SplitWhole(uuid, '.');
    var f := Split(file, '.');
    assert f == [uuid] + [ext] && f[0] == k.name && f[1] == k.ext;
  }

  /** A minted key is accepted exactly when its purpose is private, its user and its unique
      name being segments; and then it belongs to the minting user and to nobody else. */
  lemma MintedMatches(p: Purpose, user: string, uuid: string, ext: string, other: string)
    requires ext in EXTENSIONS
    ensures Matches(ANY_KYC_KEY_PATTERN, Mint(p, user, uuid, ext)) <==>
              p in PRIVATE_PURPOSES && IsSegment(user) && IsSegment(uuid)
    ensures KycKeyBelongsTo(Mint(p, user, uuid, ext), other) <==>
              p in PRIVATE_PURPOSES && IsSegment(user) && IsSegment(uuid) && other == user
  {
    hide Matches, Split;
    var key := Mint(p, user, uuid, ext);
    PatternIsText(key, SUBTYPES);
    BelongsToOwner(key, other);
    if p in PRIVATE_PURPOSES {
      PrivatePrefix(p);
      var k := Key(SubtypeOf(p), user, uuid, ext);
      assert Text(k) == key;
      forall j | WellFormed(j, SUBTYPES) && Text(j) == key ensures j == k {
        MintedFrom(p, user, uuid, ext, j);
      }
    } else {
      var rest := "/" + user + "/" + uuid + "." + ext;
      PublicPrefix(p, rest);
      assert key == PurposePrefix(p) + rest;
      forall j ensures Text(j)[0] == 'k' {
      }
    }
  }

  /** The word of each private purpose. */
  function WordOf(p: Purpose): Option<string> {
    match p
    case KycNic => Some("nic")
    case KycSelfie => Some("selfie")
    case KycAddress => Some("address")
    case KycPolice => Some("police")
    case KycLicense => Some("license")
    case KycSkill => Some("skill")
    case TaskPhoto => None
    case CompletionPhoto => None
    case ProfilePhoto => None
  }

  /** The directory of each public purpose. */
  function DirectoryOf(p: Purpose): string {
    match p
    case TaskPhoto => "tasks/photos/"
    case CompletionPhoto => "tasks/completion/"
    case ProfilePhoto => "profiles/"
    case _ => ""
  }

  lemma PrefixHasWord(p: Purpose)
    ensures p in PRIVATE_PURPOSES <==> WordOf(p).Some?
    ensures p in PRIVATE_PURPOSES ==> SubtypeOf(p) == WordOf(p).value && WordOf(p).value in SUBTYPES
    ensures p !in PRIVATE_PURPOSES ==> PurposePrefix(p) + "/" == DirectoryOf(p)
  {
    if p in PRIVATE_PURPOSES {
      assert PurposePrefix(p) == "kyc/" + WordOf(p).value by { hide DirectoryOf, SubtypeOf; }
    } else {
      assert PurposePrefix(p) + "/" == DirectoryOf(p) by { hide SubtypeOf; }
    }
    hide PurposePrefix, DirectoryOf;
  }

  /** A key minted for a private purpose from segments is accepted by the pattern of its own
      word and by that of no other; a key for a public purpose lies in its directory. */
  lemma MintedForItsPurpose(p: Purpose, user: string, uuid: string, ext: string, word: string)
    requires ext in EXTENSIONS && word in SUBTYPES
    ensures Matches(KycKeyPattern(word), Mint(p, user, uuid, ext)) <==>
              WordOf(p) == Some(word) && IsSegment(user) && IsSegment(uuid)
    ensures WordOf(p).None? ==> Mint(p, user, uuid, ext) == DirectoryOf(p) + user + "/" + uuid + "." + ext
  {
    hide Matches, Split, Mint, IsSegment;
    PrefixHasWord(p);
    MintedMatches(p, user, uuid, ext, user);
    if p in PRIVATE_PURPOSES && IsSegment(user) && IsSegment(uuid) {
      MintedWord(p, user, uuid, ext, word);
    } else {
      SubtypePattern(Mint(p, user, uuid, ext), word);
    }
    if p !in PRIVATE_PURPOSES {
      MintedPublic(p, user, uuid, ext);
    }
  }

  lemma MintedPublic(p: Purpose, user: string, uuid: string, ext: string)
    requires p !in PRIVATE_PURPOSES
    ensures Mint(p, user, uuid, ext) == DirectoryOf(p) + user + "/" + uuid + "." + ext
  {
    PrefixHasWord(p);
    hide PurposePrefix, DirectoryOf;
  }

  lemma MintedWord(p: Purpose, user: string, uuid: string, ext: string, word: string)
    requires p in PRIVATE_PURPOSES && ext in EXTENSIONS && word in SUBTYPES && IsSegment(user) && IsSegment(uuid)
    ensures Matches(KycKeyPattern(word), Mint(p, user, uuid, ext)) <==> WordOf(p) == Some(word)
  {
    hide Matches, Split, IsSegment, PurposePrefix, SubtypeOf;
    PrefixHasWord(p);
    PrivatePrefix(p);
    var k := Key(SubtypeOf(p), user, uuid, ext);
    var key := Mint(p, user, uuid, ext);
    assert Text(k) == key && WellFormed(k, SUBTYPES);
    PatternIsText(key, [word]);
    forall j | WellFormed(j, [word]) && Text(j) == key ensures j == k {
      MintedFrom(p, user, uuid, ext, j);
    }
  }

  /** UUIDs, of which user ids and unique names are made, are segments. */
  lemma UuidIsSegment(s: string)
    requires Orders.IsUuid(s)
    ensures IsSegment(s)
  {
    assert forall i :: 0 <= i < |s| ==> Orders.IsUuidChar(s[i]);
  }

  /** Whatever is uploaded by an ordinary user: a private document is accepted, under its own
      word, as that user's, and can be read back; nothing else is or can. */
  lemma UploadsRoundTrip(user: string, purpose: Purpose, contentType: string, uuid: string)
    requires Orders.IsUuid(user) && Orders.IsUuid(uuid)
    requires contentType == "image/jpeg" || contentType == "image/png" || contentType == "image/webp"
    ensures contentType in CONTENT_TYPE_EXT
    ensures var minted := Presign(user, purpose, contentType, uuid);
            && (minted.isPrivate <==> WordOf(purpose).Some?)
            && (minted.isPrivate ==> Matches(KycKeyPattern(WordOf(purpose).value), minted.key))
            && (minted.isPrivate <==> KycKeyBelongsTo(minted.key, user))
            && (minted.isPrivate <==> PresignRead(minted.key).Ok?)
    ensures CONTENT_TYPE_EXT.Keys == {"image/jpeg", "image/png", "image/webp"}
    ensures CONTENT_TYPE_EXT[contentType] ==
            if contentType == "image/jpeg" then "jpg" else if contentType == "image/png" then "png" else "webp"
  {
    hide Matches, KycKeyBelongsTo, Mint, IsSegment, PresignRead;
    UuidIsSegment(user);
    UuidIsSegment(uuid);
    PrefixHasWord(purpose);
    var ext := CONTENT_TYPE_EXT[contentType];
    MintedMatches(purpose, user, uuid, ext, user);
    ReadableIsPrivate(user, purpose, contentType, uuid);
    if WordOf(purpose).Some? {
      MintedForItsPurpose(purpose, user, uuid, ext, WordOf(purpose).value);
    }
  }

  /** Of the keys handed out to users with segment ids, exactly the private ones can be
      read back through the private path. */
  lemma ReadableIsPrivate(user: string, purpose: Purpose, contentType: string, uuid: string)
    requires contentType in CONTENT_TYPE_EXT && IsSegment(user) && IsSegment(uuid)
    ensures var minted := Presign(user, purpose, contentType, uuid);
            PresignRead(minted.key).Ok? <==> minted.isPrivate
  {
    hide Matches;
    MintedMatches(purpose, user, uuid, CONTENT_TYPE_EXT[contentType], user);
  }
}
