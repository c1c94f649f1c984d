/** Settings of the mobile client: the account, the service address, the
    point id and the send/graph options, loaded from and saved to the
    device's preference file. */
module ClientSettings {
  import opened Lang
  import ClientCommonUtils

  /** The separator the service address must end with. */
  const Separator: string := "/"

  /** The defaults loadSettings uses for the two account strings. */
  const DefaultUsername: string := "user"
  const DefaultPassword: string := ""

  /** The values of the nine settings. */
  datatype Values = Values(
    username: Option<string>,
    password: Option<string>,
    serviceUri: Option<string>,
    pointId: Option<string>,
    valueSendInterval: int,
    showGraphLimits: bool,
    maxGraphPoints: int,
    replaceStoredDataOnSync: bool,
    forceValidValues: bool)

  /** The field initialisers, in force before the preference file is read:
      nothing for the strings, a 60 s send interval, graph limits on, 300
      graph points, stored data kept on sync, valid values forced. */
  const Initial: Values := Values(None, None, None, None, 60000, true, 300, false, true)

  /** The contents of the preference file: each key is present or absent. */
  datatype Preferences = Preferences(
    username: Option<string>,
    password: Option<string>,
    serviceUri: Option<string>,
    pointId: Option<string>,
    valueSendInterval: Option<int>,
    showGraphLimits: Option<bool>,
    maxGraphPoints: Option<int>,
    replaceStoredDataOnSync: Option<bool>,
    forceValidValues: Option<bool>)

  /** loadSettings: every key read with its default; the account strings
      default to "user" and "", the address and the point id to nothing, and
      the other five settings keep their current value. */
  function Loaded(prefs: Preferences, current: Values): (v: Values)
    ensures v.username.Some? && v.password.Some?
    ensures Valid(v) <==> prefs.serviceUri.Some?
  {
    Values(
      Some(prefs.username.GetOr(DefaultUsername)),
      Some(prefs.password.GetOr(DefaultPassword)),
      prefs.serviceUri,
      prefs.pointId,
      prefs.valueSendInterval.GetOr(current.valueSendInterval),
      prefs.showGraphLimits.GetOr(current.showGraphLimits),
      prefs.maxGraphPoints.GetOr(current.maxGraphPoints),
      prefs.replaceStoredDataOnSync.GetOr(current.replaceStoredDataOnSync),
      prefs.forceValidValues.GetOr(current.forceValidValues))
  }

  /** saveSettings: the file is cleared, the four strings are written only
      when present, the other five always. */
  function Saved(v: Values): (p: Preferences)
  {
    Preferences(
      v.username, v.password, v.serviceUri, v.pointId,
      Some(v.valueSendInterval), Some(v.showGraphLimits), Some(v.maxGraphPoints),
      Some(v.replaceStoredDataOnSync), Some(v.forceValidValues))
  }

  /** isValid: the username, the password and the service address are all present. */
  predicate Valid(v: Values) {
    v.username.Some? && v.password.Some? && v.serviceUri.Some?
  }

  /** Saving and loading again restores every setting, except that an absent
      username or password comes back as its default; what was in force
      before the load does not matter. */
  lemma SaveThenLoad(v: Values, current: Values)
    ensures Loaded(Saved(v), current) ==
      v.(username := Some(v.username.GetOr(DefaultUsername)),
         password := Some(v.password.GetOr(DefaultPassword)))
    ensures v.username.Some? && v.password.Some? ==> Loaded(Saved(v), current) == v
  {
  }

  /** After a load the account strings are always present, so the settings
      are valid exactly when the file holds a service address. */
  lemma LoadedValid(prefs: Preferences, current: Values)
    ensures Valid(Loaded(prefs, current)) <==> prefs.serviceUri.Some?
  {
  }

  /** setUsername: null or empty clears the setting, anything else is stored. */
  function NullIfEmpty(s: Option<string>): (r: Option<string>)
    ensures r.None? <==> IsNullOrEmpty(s)
    ensures r.Some? ==> r == s
  {
    if IsNullOrEmpty(s) then None else s
  }

  /** setPassword and setPointId as written: on null or empty input only the
      parameter is cleared, so the setting keeps its value. */
  function KeepIfEmpty(current: Option<string>, s: Option<string>): (r: Option<string>)
  {
    if IsNullOrEmpty(s) then current else s
  }

  /** The two updates agree on every non-empty input; on an empty one the
      written update keeps a stored value the clearing update removes. */
  lemma KeepIfEmptyDiffers(current: Option<string>, s: Option<string>)
    ensures !IsNullOrEmpty(s) ==> KeepIfEmpty(current, s) == NullIfEmpty(s)
    ensures IsNullOrEmpty(s) ==> KeepIfEmpty(current, s) == current && NullIfEmpty(s).None?
  {
  }

  /** A concrete case: a stored password cannot be removed by an empty entry. */
  lemma EmptyPasswordIsIgnored()
    ensures KeepIfEmpty(Some("secret"), Some("")) == Some("secret")
    ensures NullIfEmpty(Some("")) == None
  {
    assert IsNullOrEmpty(Some(""));
  }

  /** setServiceUri: an address the platform rejects clears the setting; a
      valid one is stored with exactly one "/" appended unless it already
      ends in "/". `platformAccepts` is URLUtil.isValidUrl. */
  function NormalisedUri(uri: Option<string>, platformAccepts: string -> bool): (r: Option<string>)
    ensures r.None? <==> !ClientCommonUtils.IsValidUrl(uri, platformAccepts)
    ensures r.Some? ==> EndsWith(r.value, Separator)
    ensures r.Some? && EndsWith(uri.value, Separator) ==> r == uri
    ensures r.Some? && !EndsWith(uri.value, Separator) ==> r.value == uri.value + Separator
  {
    if !ClientCommonUtils.IsValidUrl(uri, platformAccepts) then None
    else if !EndsWith(uri.value, Separator) then Some(uri.value + Separator)
    else uri
  }

  /** Normalising an address already stored gives it back unchanged, as long
      as the platform accepts it. */
  lemma {:induction false} NormalisedUriIdempotent(uri: Option<string>, platformAccepts: string -> bool)
    requires NormalisedUri(uri, platformAccepts).Some?
    requires platformAccepts(NormalisedUri(uri, platformAccepts).value)
    ensures NormalisedUri(NormalisedUri(uri, platformAccepts), platformAccepts) == NormalisedUri(uri, platformAccepts)
  {
    var r := NormalisedUri(uri, platformAccepts);
    assert r.value != "" by {
      assert EndsWith(r.value, Separator);
    }
    assert ClientCommonUtils.IsValidUrl(r, platformAccepts);
  }

  class Settings {
    var username: Option<string>
    var password: Option<string>
    var serviceUri: Option<string>
    var pointId: Option<string>
    var valueSendInterval: int
    var showGraphLimits: bool
    var maxGraphPoints: int
    var replaceStoredDataOnSync: bool
    var forceValidValues: bool

    /** The nine settings as a value. */
    function Current(): Values
      reads this
    {
      Values(username, password, serviceUri, pointId, valueSendInterval,
             showGraphLimits, maxGraphPoints, replaceStoredDataOnSync, forceValidValues)
    }

    /** Settings(context): the initialisers, then loadSettings from the
        context's preference file `prefs`. */
    constructor (prefs: Preferences)
      ensures Current() == Loaded(prefs, Initial)
    {
      username, password, serviceUri, pointId := None, None, None, None;
      valueSendInterval, showGraphLimits, maxGraphPoints := 60000, true, 300;
      replaceStoredDataOnSync, forceValidValues := false, true;
      new;
      LoadSettings(prefs);
    }

    method LoadSettings(prefs: Preferences)
      modifies this
      ensures Current() == Loaded(prefs, old(Current()))
    {
      username := Some(prefs.username.GetOr(DefaultUsername));
      password := Some(prefs.password.GetOr(DefaultPassword));
      serviceUri := prefs.serviceUri;
      pointId := prefs.pointId;
      valueSendInterval := prefs.valueSendInterval.GetOr(valueSendInterval);
      showGraphLimits := prefs.showGraphLimits.GetOr(showGraphLimits);
      maxGraphPoints := prefs.maxGraphPoints.GetOr(maxGraphPoints);
      replaceStoredDataOnSync := prefs.replaceStoredDataOnSync.GetOr(replaceStoredDataOnSync);
      forceValidValues := prefs.forceValidValues.GetOr(forceValidValues);
    }

    /** saveSettings: what the preference file holds afterwards. */
    method SaveSettings() returns (prefs: Preferences)
      ensures prefs == Saved(Current())
      ensures forall current :: Valid(Current()) ==> Valid(Loaded(prefs, current))
    {
      prefs := Preferences(
        username, password, serviceUri, pointId,
        Some(valueSendInterval), Some(showGraphLimits), Some(maxGraphPoints),
        Some(replaceStoredDataOnSync), Some(forceValidValues));
    }

    predicate IsValid()
      reads this
    {
      Valid(Current())
    }

    method SetUsername(s: Option<string>)
      modifies this
      ensures Current() == old(Current()).(username := NullIfEmpty(s))
      ensures IsNullOrEmpty(s) ==> !IsValid()
    {
      if IsNullOrEmpty(s) {
        username := None;
      } else {
        username := s;
      }
    }

    /** setPassword as written: an empty entry is ignored. */
    method SetPassword(s: Option<string>)
      modifies this
      ensures Current() == old(Current()).(password := KeepIfEmpty(old(password), s))
      ensures IsNullOrEmpty(s) ==> password == old(password)
    {
      if !IsNullOrEmpty(s) {
        password := s;
      }
    }

    /** setPassword as evidently intended, in the manner of setUsername: an
        empty entry removes the password and makes the settings invalid. */
    method ClearPassword(s: Option<string>)
      modifies this
      ensures Current() == old(Current()).(password := NullIfEmpty(s))
      ensures IsNullOrEmpty(s) ==> !IsValid()
    {
      password := NullIfEmpty(s);
    }

    method SetServiceUri(s: Option<string>, platformAccepts: string -> bool)
      modifies this
      ensures Current() == old(Current()).(serviceUri := NormalisedUri(s, platformAccepts))
      ensures !ClientCommonUtils.IsValidUrl(s, platformAccepts) ==> !IsValid()
      ensures serviceUri.Some? ==> EndsWith(serviceUri.value, Separator)
    {
      if !ClientCommonUtils.IsValidUrl(s, platformAccepts) {
        serviceUri := None;
      } else if !EndsWith(s.value, Separator) {
        serviceUri := Some(s.value + Separator);
      } else {
        serviceUri := s;
      }
    }

    /** setPointId as written: an empty entry is ignored. */
    method SetPointId(s: Option<string>)
      modifies this
      ensures Current() == old(Current()).(pointId := KeepIfEmpty(old(pointId), s))
      ensures IsNullOrEmpty(s) ==> pointId == old(pointId)
    {
      if !IsNullOrEmpty(s) {
        pointId := s;
      }
    }

    /** setPointId as evidently intended: an empty entry removes the point id. */
    method ClearPointId(s: Option<string>)
      modifies this
      ensures Current() == old(Current()).(pointId := NullIfEmpty(s))
    {
      pointId := NullIfEmpty(s);
    }

    method SetValueSendInterval(interval: int)
      modifies this
      ensures Current() == old(Current()).(valueSendInterval := interval)
    {
      valueSendInterval := interval;
    }

    /** isShowGraphLimits reports the opposite of the stored flag. */
    function IsShowGraphLimits(): (b: bool)
      reads this
    {
      !showGraphLimits
    }

    /** setShowGraphLimits: what is set is read back negated. */
    method SetShowGraphLimits(show: bool)
      modifies this
      ensures Current() == old(Current()).(showGraphLimits := show)
      ensures IsShowGraphLimits() == !show
    {
      showGraphLimits := show;
    }

    method SetMaxGraphPoints(points: int)
      modifies this
      ensures Current() == old(Current()).(maxGraphPoints := points)
    {
      maxGraphPoints := points;
    }

    method SetReplaceStoredDataOnSync(replace: bool)
      modifies this
      ensures Current() == old(Current()).(replaceStoredDataOnSync := replace)
    {
      replaceStoredDataOnSync := replace;
    }

    method SetForceValidValues(force: bool)
      modifies this
      ensures Current() == old(Current()).(forceValidValues := force)
    {
      forceValidValues := force;
    }
  }

  /** With the default preference file (no keys at all) the account is
      "user" with an empty password and no service address, so the settings
      are not valid, and the graph-limit getter reports false. */
  lemma DefaultsAreInvalid()
    ensures var v := Loaded(Preferences(None, None, None, None, None, None, None, None, None), Initial);
      v.username == Some(DefaultUsername) && v.password == Some(DefaultPassword) &&
      !Valid(v) && v.showGraphLimits && v.valueSendInterval == 60000 && v.maxGraphPoints == 300
  {
  }

  /** getSettings: null for null; otherwise a new object, loaded from the same
      preference file `prefs`, whose nine settings are then copied one by one
      from the original. */
  method GetSettings(settings: Settings?, prefs: Preferences) returns (copy: Settings?)
    ensures copy == null <==> settings == null
    ensures copy != null ==> fresh(copy) && copy.Current() == settings.Current()
  {
    if settings == null {
      return null;
    }
    copy := new Settings(prefs);
    copy.username := settings.username;
    copy.password := settings.password;
    copy.serviceUri := settings.serviceUri;
    copy.pointId := settings.pointId;
    copy.valueSendInterval := settings.valueSendInterval;
    copy.showGraphLimits := settings.showGraphLimits;
    copy.maxGraphPoints := settings.maxGraphPoints;
    copy.replaceStoredDataOnSync := settings.replaceStoredDataOnSync;
    copy.forceValidValues := settings.forceValidValues;
  }
}
