/** The company settings of src/hooks/useCompanySettings.ts: seven text fields that start
    from fixed defaults, are merged with what localStorage holds under `companySettings`
    when the hook mounts, and are written back in full after every update. The JSON text
    itself is not modelled: the stored value is either absent, unreadable, or an object
    giving some of the fields. */
module CompanySettings {
  import opened Wrappers

  datatype Settings = Settings(
    companyName: string,
    address: string,
    phone: string,
    email: string,
    gst: string,
    currency: string,
    fiscalYearStart: string)

  /** `defaultSettings`. */
  const DefaultSettings := Settings("", "", "", "", "", "INR", "april")

  /** A `Partial<CompanySettings>`: each field given or left out. */
  datatype Patch = Patch(
    companyName: Option<string>,
    address: Option<string>,
    phone: Option<string>,
    email: Option<string>,
    gst: Option<string>,
    currency: Option<string>,
    fiscalYearStart: Option<string>)

  const EmptyPatch := Patch(None, None, None, None, None, None, None)

  datatype Field = CompanyName | Address | Phone | Email | Gst | Currency | FiscalYearStart

  function Get(s: Settings, f: Field): string
  {
    match f
    case CompanyName => s.companyName
    case Address => s.address
    case Phone => s.phone
    case Email => s.email
    case Gst => s.gst
    case Currency => s.currency
    case FiscalYearStart => s.fiscalYearStart
  }

  function Given(p: Patch, f: Field): Option<string>
  {
    match f
    case CompanyName => p.companyName
    case Address => p.address
    case Phone => p.phone
    case Email => p.email
    case Gst => p.gst
    case Currency => p.currency
    case FiscalYearStart => p.fiscalYearStart
  }

  /** Settings that agree on every field are the same settings. */
  lemma SettingsExtensional(s: Settings, t: Settings)
    requires forall f: Field :: Get(s, f) == Get(t, f)
    ensures s == t
  {
    assert Get(s, CompanyName) == Get(t, CompanyName);
    assert Get(s, Address) == Get(t, Address);
    assert Get(s, Phone) == Get(t, Phone);
    assert Get(s, Email) == Get(t, Email);
    assert Get(s, Gst) == Get(t, Gst);
    assert Get(s, Currency) == Get(t, Currency);
    assert Get(s, FiscalYearStart) == Get(t, FiscalYearStart);
  }

  /** `{ ...base, ...patch }`: every given field replaces the base's, every other field
      keeps the base's value. */
  function Merge(base: Settings, patch: Patch): (r: Settings)
    ensures forall f: Field :: Get(r, f) == Given(patch, f).GetOr(Get(base, f))
  {
    Settings(patch.companyName.GetOr(base.companyName), patch.address.GetOr(base.address),
             patch.phone.GetOr(base.phone), patch.email.GetOr(base.email), patch.gst.GetOr(base.gst),
             patch.currency.GetOr(base.currency), patch.fiscalYearStart.GetOr(base.fiscalYearStart))
  }

  /** The patch `{ [field]: value }` of the settings page. */
  function Single(f: Field, value: string): (p: Patch)
    ensures Given(p, f) == Some(value)
    ensures forall g: Field :: g != f ==> Given(p, g).None?
  {
    match f
    case CompanyName => EmptyPatch.(companyName := Some(value))
    case Address => EmptyPatch.(address := Some(value))
    case Phone => EmptyPatch.(phone := Some(value))
    case Email => EmptyPatch.(email := Some(value))
    case Gst => EmptyPatch.(gst := Some(value))
    case Currency => EmptyPatch.(currency := Some(value))
    case FiscalYearStart => EmptyPatch.(fiscalYearStart := Some(value))
  }

  /** `JSON.stringify(settings)` read back by `JSON.parse`: an object giving every field. */
  function Full(s: Settings): (p: Patch)
    ensures forall f: Field :: Given(p, f) == Some(Get(s, f))
  {
    Patch(Some(s.companyName), Some(s.address), Some(s.phone), Some(s.email), Some(s.gst),
          Some(s.currency), Some(s.fiscalYearStart))
  }

  /** An empty patch changes nothing. */
  lemma MergeEmpty(s: Settings)
    ensures Merge(s, EmptyPatch) == s
  {
    SettingsExtensional(Merge(s, EmptyPatch), s);
  }

  /** Applying the same patch twice is applying it once. */
  lemma MergeIdempotent(s: Settings, p: Patch)
    ensures Merge(Merge(s, p), p) == Merge(s, p)
  {
    SettingsExtensional(Merge(Merge(s, p), p), Merge(s, p));
  }

  /** Whatever the defaults, loading what an update persisted gives back the settings
      that were persisted. */
  lemma PersistedReadsBack(base: Settings, s: Settings)
    ensures Merge(base, Full(s)) == s
  {
    SettingsExtensional(Merge(base, Full(s)), s);
  }

  /** A one-field change leaves the other six fields as they were. */
  lemma SingleChangesOneField(s: Settings, f: Field, value: string, g: Field)
    ensures Get(Merge(s, Single(f, value)), g) == if g == f then value else Get(s, g)
  {
  }

  /** `localStorage.getItem('companySettings')` and its parse: nothing (or the empty
      text, which is as falsy), text `JSON.parse` throws on, or an object. */
  datatype Saved = Absent | Unreadable | Stored(patch: Patch)

  class CompanySettingsStore {
    /** The hook's `companySettings` state. */
    var settings: Settings
    /** What localStorage holds. */
    var saved: Saved

    constructor (stored: Saved)
      ensures settings == DefaultSettings && saved == stored
    {
      settings := DefaultSettings;
      saved := stored;
    }

    /** The mount effect: stored fields override the defaults; an absent or unreadable
        value leaves the settings as they are. */
    method Load()
      modifies this
      ensures saved.Stored? ==> settings == Merge(DefaultSettings, saved.patch)
      ensures !saved.Stored? ==> settings == old(settings)
      ensures saved == old(saved)
    {
      if saved.Stored? {
        settings := Merge(DefaultSettings, saved.patch);
      }
    }

    /** `updateCompanySettings`: the given fields change, and localStorage then holds the
        whole new settings. */
    method Update(patch: Patch)
      modifies this
      ensures settings == Merge(old(settings), patch)
      ensures saved == Stored(Full(settings))
    {
      settings := Merge(settings, patch);
      saved := Stored(Full(settings));
    }
  }

  /** A mount, an update, and a second mount over what the first one persisted: the
      second mount sees exactly the updated settings. */
  method UpdateThenReload(stored: Saved, patch: Patch) returns (updated: Settings, reloaded: Settings)
    ensures updated == Merge(if stored.Stored? then Merge(DefaultSettings, stored.patch) else DefaultSettings, patch)
    ensures reloaded == updated
  {
    var first := new CompanySettingsStore(stored);
    first.Load();
    first.Update(patch);
    updated := first.settings;
    var second := new CompanySettingsStore(first.saved);
    second.Load();
    PersistedReadsBack(DefaultSettings, updated);
    reloaded := second.settings;
  }
}
