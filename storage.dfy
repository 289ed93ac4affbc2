/**
 * The two pure pieces of the Supabase client: the check of the storage
 * configuration made when the module is loaded, and the unique name under
 * which an uploaded PDF is stored.
 */
module Storage {
  import opened Wrappers
  import opened Text

  // ---------------------------------------------------------------------
  // Configuration check
  // ---------------------------------------------------------------------

  datatype ConfigError = BadUrlOrKey | MissingBucket

  const Scheme: string := "https://"
  const HostSuffix: string := ".supabase.co"

  /** The text of the `ValueError` raised for each configuration error. */
  function ConfigErrorMessage(e: ConfigError): string {
    match e
    case BadUrlOrKey =>
      "Supabase configuration error: " + "Please set SUPABASE_URL and " + "SUPABASE_SERVICE_KEY in your .env file. "
      + "SUPABASE_URL should start with " + "'https://' and end with '.supabase.co'."
    case MissingBucket =>
      "Supabase configuration error: " + "Please set SUPABASE_BUCKET_NAME in your .env file."
  }

  /**
   * The module-level check: the URL and the service key come first, the
   * bucket name second. `None` means the configuration is accepted; an unset
   * value is modelled as the empty string.
   */
  function CheckConfig(url: string, key: string, bucket: string): (r: Option<ConfigError>)
    ensures r.None? <==> url != "" && key != "" && StartsWith(url, Scheme) && EndsWith(url, HostSuffix) && bucket != ""
    ensures r == Some(MissingBucket) <==>
      url != "" && key != "" && StartsWith(url, Scheme) && EndsWith(url, HostSuffix) && bucket == ""
  {
    if url == "" || key == "" || !StartsWith(url, Scheme) || !EndsWith(url, HostSuffix) then Some(BadUrlOrKey)
    else if bucket == "" then Some(MissingBucket)
    else None
  }

  /**
   * The scheme and the host suffix cannot share a character, so an accepted
   * URL holds both of them one after the other: it has at least 20 characters.
   */
  lemma AcceptedUrlLength(url: string, key: string, bucket: string)
    requires CheckConfig(url, key, bucket).None?
    ensures |url| >= |Scheme| + |HostSuffix|
  {
    SchemeChar(url);
  }

  /** The last character of the scheme, where a URL holding it has it. */
  lemma SchemeChar(url: string)
    ensures StartsWith(url, Scheme) ==> url[7] == '/'
  {
    if StartsWith(url, Scheme) {
      assert url[..8][7] == '/';
    }
  }

  // ---------------------------------------------------------------------
  // Unique file name
  // ---------------------------------------------------------------------

  /** A file name cut at its last dot: `name.rsplit('.', 1)`. */
  datatype NameParts = NameParts(base: string, extension: string)

  /**
   * The base name and extension `upload_pdf_to_supabase` derives: with a dot,
   * everything before the last one and the dot with what follows; without
   * one, the whole name and no extension.
   */
  function SplitName(name: string): (p: NameParts)
    ensures p.base + p.extension == name
    ensures '.' !in name ==> p == NameParts(name, "")
    ensures '.' in name ==> |p.extension| >= 1 && p.extension[0] == '.' && '.' !in p.extension[1..]
  {
    match RFindChar(name, '.')
    case None => NameParts(name, "")
    case Some(i) =>
      assert name == name[..i] + name[i..];
      assert name[i..][1..] == name[i + 1..];
      NameParts(name[..i], name[i..])
  }

  /** `f"user_{user_id}_"` for a user id, `"user_"` without one (a missing id is modelled as ""). */
  function UserPrefix(userId: string): (p: string)
    ensures StartsWith(p, "user_") && EndsWith(p, "_")
    ensures userId != "" ==> Contains(p, userId)
  {
    if userId != "" then
      var p := "user_" + userId + "_";
      assert p[5..5 + |userId|] == userId;
      assert OccursAt(p, userId, 5);
      p
    else "user_"
  }

  /** The stamp part of a stored name: the timestamp and the short uuid between underscores. */
  function Stamp(timestamp: nat, uid: string): string {
    "_" + NatToString(timestamp) + "_" + uid
  }

  /**
   * `f"{user_prefix}{base_name}_{timestamp}_{unique_id}{extension}"`, the name
   * the file is stored under and the second value the upload returns.
   */
  function UniqueFilename(userId: string, name: string, timestamp: nat, uid: string): (f: string)
    ensures StartsWith(f, UserPrefix(userId))
    ensures EndsWith(f, SplitName(name).extension)
  {
    var prefix := UserPrefix(userId);
    var extension := SplitName(name).extension;
    var f := prefix + SplitName(name).base + Stamp(timestamp, uid) + extension;
    assert f[..|prefix|] == prefix;
    assert f[|f| - |extension|..] == extension;
    f
  }

  lemma MiddleEqual(a: string, x: string, y: string, b: string)
    requires a + x + b == a + y + b
    ensures x == y
  {
    var f := a + x + b;
    assert |x| == |y|;
    assert x == f[|a|..|a| + |x|];
  }

  /** With 8-character uuids, equal stamps come from equal timestamps and uuids. */
  lemma StampInjective(t1: nat, u1: string, t2: nat, u2: string)
    requires |u1| == 8 && |u2| == 8 && Stamp(t1, u1) == Stamp(t2, u2)
    ensures t1 == t2 && u1 == u2
  {
    var s := Stamp(t1, u1);
    var n1, n2 := NatToString(t1), NatToString(t2);
    assert |n1| == |n2|;
    assert n1 == s[1..1 + |n1|] == n2;
    NatToStringInjective(t1, t2);
    assert u1 == s[|s| - 8..] == u2;
  }

  /**
   * Two uploads of the same file by the same user get different names when
   * their timestamps or their 8-character uuid prefixes differ.
   */
  lemma UniqueFilenameInjective(userId: string, name: string, t1: nat, u1: string, t2: nat, u2: string)
    requires |u1| == 8 && |u2| == 8
    requires UniqueFilename(userId, name, t1, u1) == UniqueFilename(userId, name, t2, u2)
    ensures t1 == t2 && u1 == u2
  {
    MiddleEqual(UserPrefix(userId) + SplitName(name).base, Stamp(t1, u1), Stamp(t2, u2), SplitName(name).extension);
    StampInjective(t1, u1, t2, u2);
  }
}
