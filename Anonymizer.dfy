/** The privacy helpers of backend/pkg/privacy/anonymizer.go: e-mail masking,
    the retention decision over the fixed retention table, the privacy settings
    read from a decoded JSON object, and AnonymizeData. Durations are nanoseconds
    (Go `time.Duration`); decoded JSON values are the datatype `Value`. */
module Anonymizer {
  import opened Wrappers
  import opened Strings

  const Invalid := "invalid@example.com"

  // ---------------------------------------------------------------------------
  // Counting characters across a concatenation

  lemma {:induction false} CountConcat(a: string, b: string, c: char)
    ensures Count(a + b, c) == Count(a, c) + Count(b, c)
  {
    if a == [] {
      assert a + b == b;
    } else {
      CountConcat(a[1..], b, c);
      assert (a + b)[0] == a[0];
      assert (a + b)[1..] == a[1..] + b;
    }
  }

  lemma {:induction false} CountAbsent(s: string, c: char)
    ensures Count(s, c) == 0 <==> c !in s
  {
    if s != [] {
      CountAbsent(s[1..], c);
      assert s == [s[0]] + s[1..];
    }
  }

  // ---------------------------------------------------------------------------
  // AnonymizeEmail

  /** The username with its interior masked (lengths above 2), or with one mask added. */
  function MaskUser(user: string): (r: string)
    ensures |user| > 2 ==> (|r| == |user| && r[0] == user[0] && r[|r| - 1] == user[|user| - 1]
      && forall i :: 0 < i < |user| - 1 ==> r[i] == '*')
    ensures |user| == 2 ==> r == [user[0], '*']
    ensures |user| <= 1 ==> r == user + "*"
  {
    if |user| > 2 then user[0..1] + Repeat('*', |user| - 2) + user[|user| - 1..]
    else if |user| == 2 then user[0..1] + "*"
    else user + "*"
  }

  /** AnonymizeEmail: anything that does not split on '@' into exactly two parts
      becomes the fixed invalid address; otherwise the username is masked and the
      domain kept. */
  function AnonymizeEmail(email: string): (r: string)
    ensures Count(email, '@') != 1 ==> r == Invalid
    ensures Count(email, '@') == 1 ==> (
      var parts := Split(email, '@');
      email == parts[0] + "@" + parts[1] && r == MaskUser(parts[0]) + "@" + parts[1])
  {
    var parts := Split(email, '@');
    if |parts| != 2 then Invalid
    else
      SplitJoin(email, '@');
      assert Join(parts, '@') == parts[0] + "@" + parts[1];
      var username := parts[0];
      var domain := parts[1];
      if |username| > 2 then
        username[0..1] + Repeat('*', |username| - 2) + username[|username| - 1..] + "@" + domain
      else if |username| == 2 then
        username[0..1] + "*@" + domain
      else
        username + "*@" + domain
  }

  /** Masking adds no '@'. */
  lemma MaskUserNoAt(user: string)
    requires '@' !in user
    ensures '@' !in MaskUser(user)
  {
    var m := MaskUser(user);
    if |user| > 2 {
      forall i | 0 <= i < |m| ensures m[i] != '@' {
        if i == 0 || i == |m| - 1 {
          assert user[i] in user;
        }
      }
    } else if |user| == 2 {
      assert user[0] in user;
    }
  }

  /** A masked username of at least one character masks to itself. */
  lemma MaskUserIdempotent(user: string)
    requires user != ""
    ensures MaskUser(MaskUser(user)) == MaskUser(user)
  {
    var m := MaskUser(user);
    if |user| > 2 {
      var mm := MaskUser(m);
      forall i | 0 <= i < |m| ensures mm[i] == m[i] {
      }
    }
  }

  /** For an address `user@domain`, the domain is kept verbatim, the output has exactly
      one '@', and the masked username has the shape MaskUser states. */
  lemma EmailMasked(user: string, domain: string)
    requires '@' !in user && '@' !in domain
    ensures AnonymizeEmail(user + "@" + domain) == MaskUser(user) + "@" + domain
    ensures Count(AnonymizeEmail(user + "@" + domain), '@') == 1
  {
    var email := user + "@" + domain;
    SplitTwo(user, domain, '@');
    assert email == user + ['@'] + domain;
    assert Count(email, '@') == 1;
    var r := MaskUser(user) + "@" + domain;
    MaskUserNoAt(user);
    CountAbsent(MaskUser(user), '@');
    CountAbsent(domain, '@');
    CountConcat(MaskUser(user), "@" + domain, '@');
    CountConcat("@", domain, '@');
    assert r == MaskUser(user) + ("@" + domain);
  }

  /** Masking a well-formed address with a non-empty username a second time changes
      nothing (an empty username gains one more '*' each time). */
  lemma EmailMaskingIdempotent(user: string, domain: string)
    requires '@' !in user && '@' !in domain && user != ""
    ensures AnonymizeEmail(AnonymizeEmail(user + "@" + domain)) == AnonymizeEmail(user + "@" + domain)
  {
    EmailMasked(user, domain);
    MaskUserNoAt(user);
    EmailMasked(MaskUser(user), domain);
    MaskUserIdempotent(user);
  }

  // ---------------------------------------------------------------------------
  // Privacy settings and retention

  /** A decoded JSON value. */
  datatype Value =
    | VNull
    | VBool(b: bool)
    | VNumber(n: real)
    | VString(s: string)
    | VObject(fields: map<string, Value>)

  datatype PrivacySettings = PrivacySettings(shareLocation: bool, shareContent: bool, allowNotifications: bool,
                                             dataRetention: string, shareAnalytics: bool, personalizedContent: bool)

  const Defaults := PrivacySettings(false, true, true, "90days", true, true)

  const KelvinSign := '\U{212A}'
  const LongS := '\U{017F}'

  /** encoding/json's folding of a key against a field name: ASCII letters match in
      either case, and the Kelvin sign and the long s match K and S. */
  function FoldChar(c: char): char {
    if 'a' <= c <= 'z' then (c as int - 32) as char
    else if c == KelvinSign then 'K'
    else if c == LongS then 'S'
    else c
  }

  function Fold(s: string): (r: string)
    ensures |r| == |s| && forall i :: 0 <= i < |s| ==> r[i] == FoldChar(s[i])
  {
    seq(|s|, i requires 0 <= i < |s| => FoldChar(s[i]))
  }

  /** The key decodes into the field whose tag is `name`. */
  predicate Names(key: string, name: string) {
    Fold(key) == Fold(name)
  }

  /** The keys of the object that set a boolean field: the ones naming it with a boolean
      value. Null, and a value of another type, leave the field as it was. */
  function BoolKeys(m: map<string, Value>, name: string): set<string> {
    set k | k in m && Names(k, name) && m[k].VBool?
  }

  function StringKeys(m: map<string, Value>, name: string): set<string> {
    set k | k in m && Names(k, name) && m[k].VString?
  }

  /** A boolean field after decoding. json.Marshal writes the object's keys in sorted order
      and Unmarshal assigns them in that order, so of the keys that set the field the one
      that sorts last decides it; with none the default stays. */
  function BoolField(m: map<string, Value>, name: string, default: bool): (b: bool)
    ensures BoolKeys(m, name) == {} ==> b == default
    ensures BoolKeys(m, name) != {} ==>
      b == m[Greatest(BoolKeys(m, name))].b
  {
    var keys := BoolKeys(m, name);
    if keys == {} then default else m[Greatest(keys)].b
  }

  function StringField(m: map<string, Value>, name: string, default: string): (s: string)
    ensures StringKeys(m, name) == {} ==> s == default
    ensures StringKeys(m, name) != {} ==>
      s == m[Greatest(StringKeys(m, name))].s
  {
    var keys := StringKeys(m, name);
    if keys == {} then default else m[Greatest(keys)].s
  }

  /** Whichever setting key sorts after all the others decides the field. */
  lemma LastBoolKeyDecides(m: map<string, Value>, name: string, default: bool, k: string)
    requires IsGreatest(BoolKeys(m, name), k)
    ensures BoolField(m, name, default) == m[k].b
    ensures m[k].VBool? && Names(k, name)
  {
    GreatestUnique(BoolKeys(m, name), k, Greatest(BoolKeys(m, name)));
  }

  lemma LastStringKeyDecides(m: map<string, Value>, name: string, default: string, k: string)
    requires IsGreatest(StringKeys(m, name), k)
    ensures StringField(m, name, default) == m[k].s
    ensures m[k].VString? && Names(k, name)
  {
    GreatestUnique(StringKeys(m, name), k, Greatest(StringKeys(m, name)));
  }

  /** An object with a single key naming the field sets it to that key's string. */
  lemma OnlyStringKey(key: string, v: string, name: string, default: string)
    requires Names(key, name)
    ensures StringField(map[key := VString(v)], name, default) == v
  {
    assert StringKeys(map[key := VString(v)], name) == {key};
  }

  lemma OnlyBoolKey(key: string, v: bool, name: string, default: bool)
    requires Names(key, name)
    ensures BoolField(map[key := VBool(v)], name, default) == v
  {
    assert BoolKeys(map[key := VBool(v)], name) == {key};
  }

  /** Of two keys naming the same boolean field, the one that sorts later decides it, and
      a null there leaves the earlier one's value. */
  lemma LaterBoolKey(first: string, second: string, v: bool, w: bool, name: string, default: bool)
    requires Names(first, name) && Names(second, name) && LexLess(first, second)
    ensures BoolField(map[first := VBool(v), second := VBool(w)], name, default) == w
    ensures BoolField(map[first := VBool(v), second := VNull], name, default) == v
  {
    LexTotal(first, second);
    var m := map[first := VBool(v), second := VBool(w)];
    assert BoolKeys(m, name) == {first, second};
    LastBoolKeyDecides(m, name, default, second);
    assert BoolKeys(map[first := VBool(v), second := VNull], name) == {first};
  }

  lemma {:induction false} FoldedAlike(a: string, b: string)
    requires |a| == |b| && forall i :: 0 <= i < |a| ==> FoldChar(a[i]) == FoldChar(b[i])
    ensures Names(a, b)
  {
  }

  /** Keys match their field whatever the case of their ASCII letters. */
  lemma KeysMatchWithoutCase()
    ensures BoolField(map["ShareAnalytics" := VBool(false)], "shareAnalytics", true) == false
    ensures StringField(map["DATARETENTION" := VString("30days")], "dataRetention", "90days") == "30days"
  {
    FoldedAlike("ShareAnalytics", "shareAnalytics");
    OnlyBoolKey("ShareAnalytics", false, "shareAnalytics", true);
    FoldedAlike("DATARETENTION", "dataRetention");
    OnlyStringKey("DATARETENTION", "30days", "dataRetention", "90days");
  }

  /** "shareanalytics" sorts after "shareAnalytics" ('a' comes after 'A'), so it wins. */
  lemma LowerCaseKeyWins()
    ensures BoolField(map["shareAnalytics" := VBool(true), "shareanalytics" := VBool(false)], "shareAnalytics", true)
      == false
  {
    FoldedAlike("shareanalytics", "shareAnalytics");
    assert LexLess("shareAnalytics", "shareanalytics");
    LaterBoolKey("shareAnalytics", "shareanalytics", true, false, "shareAnalytics", true);
  }

  /** getPrivacySettings: the defaults, overridden field by field by the decoded object. */
  function GetPrivacySettings(settings: Option<map<string, Value>>): (r: PrivacySettings)
    ensures settings.None? ==> r == Defaults
    ensures settings == Some(map[]) ==> r == Defaults
    ensures settings.Some? ==>
      var m := settings.value;
      r.shareLocation == BoolField(m, "shareLocation", false)
      && r.shareContent == BoolField(m, "shareContent", true)
      && r.allowNotifications == BoolField(m, "allowNotifications", true)
      && r.dataRetention == StringField(m, "dataRetention", "90days")
      && r.shareAnalytics == BoolField(m, "shareAnalytics", true)
      && r.personalizedContent == BoolField(m, "personalizedContent", true)
  {
    match settings
    case None => Defaults
    case Some(m) =>
      PrivacySettings(
        BoolField(m, "shareLocation", Defaults.shareLocation),
        BoolField(m, "shareContent", Defaults.shareContent),
        BoolField(m, "allowNotifications", Defaults.allowNotifications),
        StringField(m, "dataRetention", Defaults.dataRetention),
        BoolField(m, "shareAnalytics", Defaults.shareAnalytics),
        BoolField(m, "personalizedContent", Defaults.personalizedContent))
  }

  const Day: int := 24 * 60 * 60 * 1_000_000_000

  /** The retention table of NewAnonymizer. */
  function RetentionPeriod(key: string): (p: Option<int>)
    ensures p.Some? <==> key in {"30days", "90days", "1year", "forever"}
    ensures p.Some? ==> p.value > 0
  {
    if key == "30days" then Some(30 * Day)
    else if key == "90days" then Some(90 * Day)
    else if key == "1year" then Some(365 * Day)
    else if key == "forever" then Some(100 * 365 * Day)
    else None
  }

  /** ShouldRetainData at `now`: data is kept while its age is within the period for the
      settings' retention key, 90 days for a key the table does not know. */
  function ShouldRetainData(createdAt: int, now: int, settings: Option<map<string, Value>>): (keep: bool)
    ensures var key := GetPrivacySettings(settings).dataRetention;
      keep <==> now - createdAt <= RetentionPeriod(key).GetOr(90 * Day)
  {
    var retention := match RetentionPeriod(GetPrivacySettings(settings).dataRetention)
      case Some(p) => p
      case None => RetentionPeriod("90days").value;
    now - createdAt <= retention
  }

  /** The retention table's keys, shortest period first. */
  const RetentionKeys := ["30days", "90days", "1year", "forever"]

  /** Settings whose retention key is longer keep everything that settings with a shorter
      one keep. */
  lemma RetentionOrdered(createdAt: int, now: int, shorter: Option<map<string, Value>>,
                         longer: Option<map<string, Value>>, i: int, j: int)
    requires 0 <= i <= j < |RetentionKeys|
    requires GetPrivacySettings(shorter).dataRetention == RetentionKeys[i]
    requires GetPrivacySettings(longer).dataRetention == RetentionKeys[j]
    ensures ShouldRetainData(createdAt, now, shorter) ==> ShouldRetainData(createdAt, now, longer)
  {
    PeriodsOrdered(i, j);
  }

  lemma PeriodsOrdered(i: int, j: int)
    requires 0 <= i <= j < |RetentionKeys|
    ensures RetentionPeriod(RetentionKeys[i]).Some? && RetentionPeriod(RetentionKeys[j]).Some?
    ensures RetentionPeriod(RetentionKeys[i]).value <= RetentionPeriod(RetentionKeys[j]).value
  {
  }

  /** With no settings, and with a retention key the table does not know, the cut-off is
      90 days. */
  lemma RetentionDefault(createdAt: int, now: int)
    ensures ShouldRetainData(createdAt, now, None) <==> now - createdAt <= 90 * Day
    ensures ShouldRetainData(createdAt, now, Some(map["dataRetention" := VString("90days")]))
      == ShouldRetainData(createdAt, now, None)
    ensures ShouldRetainData(createdAt, now, Some(map["dataRetention" := VString("2years")]))
      == ShouldRetainData(createdAt, now, None)
  {
    RetainedUnder(createdAt, now, "90days");
    RetainedUnder(createdAt, now, "2years");
  }

  /** Settings holding only a retention key keep data for that key's period. */
  lemma RetainedUnder(createdAt: int, now: int, key: string)
    ensures ShouldRetainData(createdAt, now, Some(map["dataRetention" := VString(key)]))
      <==> now - createdAt <= RetentionPeriod(key).GetOr(90 * Day)
  {
    OnlyStringKey("dataRetention", key, "dataRetention", "90days");
  }

  // ---------------------------------------------------------------------------
  // AnonymizeData

  /** The "location" rewrite: an object holding numeric latitude and longitude gets
      the reduced-precision pair. */
  predicate HasCoordinates(v: Value) {
    v.VObject? && "latitude" in v.fields && v.fields["latitude"].VNumber?
    && "longitude" in v.fields && v.fields["longitude"].VNumber?
  }

  function Coarsened(v: Value, anonymizeLocation: (real, real) -> (real, real)): Value
    requires HasCoordinates(v)
  {
    var p := anonymizeLocation(v.fields["latitude"].n, v.fields["longitude"].n);
    VObject(v.fields["latitude" := VNumber(p.0)]["longitude" := VNumber(p.1)])
  }

  /** AnonymizeData. The geometric truncation of AnonymizeLocation is the parameter
      `anonymizeLocation`. */
  method AnonymizeData(data: map<string, Value>, privacySettings: Option<map<string, Value>>,
                       anonymizeLocation: (real, real) -> (real, real)) returns (result: map<string, Value>)
    ensures var s := GetPrivacySettings(privacySettings);
      result.Keys == data.Keys - (if s.shareAnalytics then {} else {"analytics", "usage_data"})
    ensures forall k :: k in result && k != "email" && k != "location" ==> result[k] == data[k]
    ensures "email" in result ==>
      result["email"] == (if data["email"].VString? then VString(AnonymizeEmail(data["email"].s)) else data["email"])
    ensures "location" in result ==>
      result["location"] == (if !GetPrivacySettings(privacySettings).shareLocation && HasCoordinates(data["location"])
                             then Coarsened(data["location"], anonymizeLocation) else data["location"])
  {
    result := CopyData(data);
    var settings := GetPrivacySettings(privacySettings);
    if !settings.shareLocation && "location" in result && HasCoordinates(result["location"]) {
      result := result["location" := Coarsened(result["location"], anonymizeLocation)];
    }
    if "email" in result && result["email"].VString? {
      result := result["email" := VString(AnonymizeEmail(result["email"].s))];
    }
    if !settings.shareAnalytics {
      result := result - {"analytics", "usage_data"};
    }
  }

  /** The copy loop at the head of AnonymizeData: every entry of the map, one key at a time. */
  method CopyData(data: map<string, Value>) returns (result: map<string, Value>)
    ensures result == data
  {
    result := map[];
    var pending := data.Keys;
    while pending != {}
      invariant pending <= data.Keys
      invariant result.Keys == data.Keys - pending
      invariant forall k :: k in result ==> result[k] == data[k]
      decreases |pending|
    {
      var k :| k in pending;
      result := result[k := data[k]];
      pending := pending - {k};
    }
  }
}
