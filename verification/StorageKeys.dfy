/** Minting storage keys and reading them back out of stored URLs. */
module StorageKeys {
  import opened Wrappers

  // ---- str.find and str.split ----------------------------------------------

  predicate Occurs(s: string, m: string, i: nat) { i + |m| <= |s| && s[i..i + |m|] == m }

  /** The first occurrence, or -1. */
  function Find(s: string, m: string): (r: int)
    ensures r >= 0 ==> Occurs(s, m, r)
    ensures forall i: nat :: Occurs(s, m, i) ==> 0 <= r <= i
  {
    FindFrom(s, m, 0)
  }

  function FindFrom(s: string, m: string, from: nat): (r: int)
    ensures r >= 0 ==> from <= r && Occurs(s, m, r)
    ensures forall i: nat :: from <= i && Occurs(s, m, i) ==> 0 <= r <= i
    decreases |s| - from
  {
    if from + |m| > |s| then -1
    else if s[from..from + |m|] == m then from
    else FindFrom(s, m, from + 1)
  }

  /** What comes before the first question mark. */
  function BeforeQuery(s: string): (r: string)
    ensures r <= s && '?' !in r
    ensures |r| < |s| ==> s[|r|] == '?'
  {
    if s == [] || s[0] == '?' then [] else [s[0]] + BeforeQuery(s[1..])
  }

  /** A question mark, if any, ends the part that is kept. */
  lemma QueryIsCut(s: string, suffix: string)
    requires '?' !in s && (suffix == [] || suffix[0] == '?')
    ensures BeforeQuery(s + suffix) == s
  {
    var r := BeforeQuery(s + suffix);
    assert forall j :: 0 <= j < |r| ==> r[j] != '?' && r[j] == (s + suffix)[j];
    assert forall j :: 0 <= j < |s| ==> s[j] != '?' && s[j] == (s + suffix)[j];
    assert suffix != [] ==> (s + suffix)[|s|] == '?';
    assert |r| == |s|;
  }

  /** The part of a URL from some point on, up to its query. */
  lemma CutFrom(s: string, suffix: string, from: nat)
    requires '?' !in s && (suffix == [] || suffix[0] == '?') && from <= |s|
    ensures BeforeQuery((s + suffix)[from..]) == s[from..]
  {
    assert (s + suffix)[from..] == s[from..] + suffix;
    QueryIsCut(s[from..], suffix);
  }

  // ---- Keys and URLs -------------------------------------------------------

  /** An identifier as it appears in a key. */
  predicate Id(s: string) { s != [] && '/' !in s && '?' !in s }

  /** The prefix all objects of a session share. */
  function Marker(user: string, session: string): string { user + "/" + session + "/" }

  /** The key `_validate` mints. */
  function MintKey(user: string, session: string, media: string, ext: string): string {
    Marker(user, session) + media + "." + ext
  }

  /** `_extract_storage_key` of the media service and `_extract_key` of the review service. */
  function ExtractKey(url: string, user: string, session: string): (key: Option<string>)
    ensures key.None? <==> forall i: nat :: !Occurs(url, Marker(user, session), i)
  {
    var at := Find(url, Marker(user, session));
    if at < 0 then None else Some(BeforeQuery(url[at..]))
  }

  /** `_storage_key_from_url` of the media routes; None is its NotFoundError. */
  function KeyFromUrl(url: string, bucket: string): (key: Option<string>)
    ensures key.None? <==> forall i: nat :: !Occurs(url, "/" + bucket + "/", i)
  {
    var marker := "/" + bucket + "/";
    var at := Find(url, marker);
    if at < 0 then None else Some(BeforeQuery(url[at + |marker|..]))
  }

  function EndsWith(s: string, t: string): bool { |t| <= |s| && s[|s| - |t|..] == t }

  // ---- Where the marker can first occur ------------------------------------

  /** An occurrence that starts in the base ends in it too, or the base ends in the user id and both ids coincide. */
  lemma EarlyOccurrence(base: string, user: string, session: string, tail: string, i: nat)
    requires Id(user) && Id(session) && (base == [] || base[|base| - 1] == '/')
    requires i < |base| && Occurs(base + (Marker(user, session) + tail), Marker(user, session), i)
    ensures Occurs(base, Marker(user, session), i) || (user == session && EndsWith(base, user + "/"))
  {
    var marker := Marker(user, session);
    var url := base + (marker + tail);
    if i + |marker| <= |base| {
      assert url[i..i + |marker|] == base[i..i + |marker|];
    } else {
      var k := |base| - 1 - i;
      assert marker[k] == url[i..i + |marker|][k] == url[i + k] == base[i + k] == '/';
      SlashesOf(user, session, k);
      assert k == |user|;
      Straddles(base, user, session, tail, i);
    }
  }

  lemma SlashesOf(user: string, session: string, k: nat)
    requires Id(user) && Id(session) && k < |Marker(user, session)| && Marker(user, session)[k] == '/'
    ensures k == |user| || k == |user| + 1 + |session|
  {
    assert forall j :: 0 <= j < |user| ==> user[j] != '/' && Marker(user, session)[j] == user[j];
    assert forall j :: 0 <= j < |session| ==> session[j] != '/' && Marker(user, session)[|user| + 1 + j] == session[j];
    assert |user| < k ==> k == |user| + 1 + (k - |user| - 1);
  }

  /** The first slash of the marker falls on the last of the base: what follows the base begins with both ids. */
  lemma Straddles(base: string, user: string, session: string, tail: string, i: nat)
    requires Id(user) && Id(session) && i + |user| + 1 == |base|
    requires Occurs(base + (Marker(user, session) + tail), Marker(user, session), i)
    ensures user == session && EndsWith(base, user + "/")
  {
    var marker := Marker(user, session);
    var url := base + (marker + tail);
    assert base[i..] == url[i..i + |user| + 1] == marker[..|user| + 1] == user + "/";
    forall j | 0 <= j <= |session| ensures url[|base| + j] == (session + "/")[j] {
      assert url[|base| + j] == url[i..i + |marker|][|user| + 1 + j] == marker[|user| + 1 + j];
    }
    SamePrefix(user, session, marker + tail, url[|base|..]);
  }

  lemma SamePrefix(user: string, session: string, text: string, same: string)
    requires Id(user) && Id(session) && same == text
    requires |text| > |user| && text[..|user| + 1] == user + "/"
    requires |same| > |session| && forall j :: 0 <= j <= |session| ==> same[j] == (session + "/")[j]
    ensures user == session
  {
    assert forall j :: 0 <= j <= |user| ==> text[j] == (user + "/")[j];
    assert forall j :: 0 <= j < |session| ==> session[j] != '/' && text[j] == session[j];
    assert forall j :: 0 <= j < |user| ==> user[j] != '/' && text[j] == user[j];
    assert text[|user|] == '/' && text[|session|] == '/';
    assert |user| == |session|;
    assert user == text[..|user|] == session;
  }

  // ---- The round trip ------------------------------------------------------

  /** The base hides no earlier occurrence of the session's marker. */
  predicate Clear(base: string, user: string, session: string) {
    && Find(base, Marker(user, session)) < 0
    && !(user == session && EndsWith(base, user + "/"))
  }

  lemma FoundAtTheKey(base: string, user: string, session: string, tail: string)
    requires Id(user) && Id(session) && (base == [] || base[|base| - 1] == '/')
    ensures Find(base + (Marker(user, session) + tail), Marker(user, session)) == |base| <==> Clear(base, user, session)
  {
    var marker := Marker(user, session);
    var url := base + (marker + tail);
    assert url[|base|..|base| + |marker|] == marker;
    assert Occurs(url, marker, |base|);
    var at := Find(url, marker);
    if at < |base| { EarlyOccurrence(base, user, session, tail, at); }
    if Find(base, marker) >= 0 {
      var i := Find(base, marker);
      assert url[i..i + |marker|] == base[i..i + |marker|];
      assert Occurs(url, marker, i);
    }
    if user == session && EndsWith(base, user + "/") {
      OccursAcross(base, user, tail);
    }
  }

  lemma OccursAcross(base: string, user: string, tail: string)
    requires EndsWith(base, user + "/")
    ensures Occurs(base + (Marker(user, user) + tail), Marker(user, user), |base| - |user| - 1)
  {
    var i, marker := |base| - |user| - 1, Marker(user, user);
    var url := base + (marker + tail);
    assert url[i..|base|] == base[i..] == user + "/";
    assert url[|base|..|base| + |user| + 1] == marker[..|user| + 1] == user + "/";
    assert url[i..i + |marker|] == url[i..|base|] + url[|base|..|base| + |user| + 1];
  }

  /**
    For a minted key alone or behind any base URL that ends in a slash and has no query, with or without a
    query of its own, the extraction returns exactly that key if and only if the base does not contain
    the marker, nor ends in the user id when user and session ids coincide.
   */
  lemma KeyRoundTrip(base: string, user: string, session: string, media: string, ext: string, query: string)
    requires Id(user) && Id(session) && Id(media) && Id(ext)
    requires (base == [] || base[|base| - 1] == '/') && '?' !in base
    requires query == [] || query[0] == '?'
    ensures var key := MintKey(user, session, media, ext);
      ExtractKey(base + key + query, user, session) == Some(key) <==> Clear(base, user, session)
  {
    var marker, key := Marker(user, session), MintKey(user, session, media, ext);
    var tail := media + "." + ext + query;
    var url := base + key + query;
    assert url == base + (marker + tail);
    assert Occurs(url, marker, |base|) by { assert url[|base|..|base| + |marker|] == marker; }
    FoundAtTheKey(base, user, session, tail);
    NoQuery(user, session, media, ext);
    CutExactly(base, key, query, Find(url, marker));
  }

  lemma NoQuery(user: string, session: string, media: string, ext: string)
    requires Id(user) && Id(session) && Id(media) && Id(ext)
    ensures '?' !in MintKey(user, session, media, ext)
  {}

  /** What follows the bucket segment does not move the marker's first occurrence. */
  lemma FoundInTheBase(host: string, marker: string, rest: string)
    ensures Find(host + marker + rest, marker) == Find(host + marker, marker) >= 0
  {
    var base, url := host + marker, host + marker + rest;
    assert Occurs(base, marker, |host|) by { assert base[|host|..|host| + |marker|] == marker; }
    SameOccurrence(base, rest, marker, |host|);
    SameOccurrence(base, rest, marker, Find(base, marker));
    SameOccurrence(base, rest, marker, Find(url, marker));
  }

  lemma SameOccurrence(base: string, rest: string, marker: string, i: nat)
    requires i + |marker| <= |base|
    ensures Occurs(base + rest, marker, i) <==> Occurs(base, marker, i)
  {
    assert (base + rest)[i..i + |marker|] == base[i..i + |marker|];
  }

  /** The route's extraction returns the key exactly when the bucket's marker first occurs as the bucket segment. */
  lemma BucketRoundTrip(host: string, bucket: string, user: string, session: string, media: string, ext: string,
                        query: string)
    requires Id(user) && Id(session) && Id(media) && Id(ext) && '?' !in host && '?' !in bucket
    requires query == [] || query[0] == '?'
    ensures var base, key := host + ("/" + bucket + "/"), MintKey(user, session, media, ext);
      KeyFromUrl(base + key + query, bucket) == Some(key) <==> Find(base, "/" + bucket + "/") == |host|
  {
    var marker, key := "/" + bucket + "/", MintKey(user, session, media, ext);
    var base := host + marker;
    var url := base + key + query;
    assert url == host + marker + (key + query);
    FoundInTheBase(host, marker, key + query);
    NoQuery(user, session, media, ext);
    CutExactly(base, key, query, Find(url, marker) + |marker|);
  }

  /** Cutting at `from` leaves the key exactly when the base ends there. */
  lemma CutExactly(base: string, key: string, query: string, from: nat)
    requires '?' !in base && '?' !in key && from <= |base| && (query == [] || query[0] == '?')
    ensures BeforeQuery((base + key + query)[from..]) == key <==> from == |base|
  {
    CutFrom(base + key, query, from);
    assert from == |base| ==> (base + key)[from..] == key;
    assert |(base + key)[from..]| == |base| + |key| - from;
  }

  /** Where both hold, the two ways of reading a URL agree. */
  lemma BothWaysAgree(host: string, bucket: string, user: string, session: string, media: string, ext: string,
                      query: string)
    requires Id(user) && Id(session) && Id(media) && Id(ext) && '?' !in host && '?' !in bucket
    requires query == [] || query[0] == '?'
    requires Find(host + ("/" + bucket + "/"), "/" + bucket + "/") == |host|
    requires Clear(host + ("/" + bucket + "/"), user, session)
    ensures var url := host + ("/" + bucket + "/") + MintKey(user, session, media, ext) + query;
      ExtractKey(url, user, session) == KeyFromUrl(url, bucket) == Some(MintKey(user, session, media, ext))
  {
    KeyRoundTrip(host + ("/" + bucket + "/"), user, session, media, ext, query);
    BucketRoundTrip(host, bucket, user, session, media, ext, query);
  }
}
