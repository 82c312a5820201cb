/**
 * The site settings document (key `main`) and its three routes: reading it (creating the
 * defaults on first use), the shallow-merge update of every section, and the truthy-or-keep
 * update of the impact statistics.
 */
module SettingsRoutes {
  import opened Wrappers

  datatype StatCard = StatCard(value: string, subtext: string)

  datatype ImpactStats = ImpactStats(
    tonsProcessed: StatCard, globalUptime: StatCard, collectionPoints: StatCard, carbonOffset: StatCard)

  datatype Hero = Hero(tagline: string, title: string, subtitle: string)

  datatype Contact = Contact(email: string, phone: string, address: string)

  datatype SiteSettings = SiteSettings(
    key: string, impactStats: ImpactStats, hero: Hero, contact: Contact, updatedAt: int)

  /** The schema defaults; the save that creates the document stamps `updatedAt`. */
  function DefaultSettings(now: int): (s: SiteSettings)
    ensures s.key == "main" && s.updatedAt == now
  {
    SiteSettings(
      "main",
      ImpactStats(
        StatCard("50,240", "+12% this month"),
        StatCard("99.99%", "Uninterrupted service"),
        StatCard("12,405", "Expanding network"),
        StatCard("-450T", "Net negative impact")),
      Hero("WASTE MANAGEMENT SYSTEM", "RETHINK WASTE", "EMBRACE ZERO"),
      Contact("contact@ecosync.com", "+1 (555) 123-4567", "123 Green Street, Eco City"),
      now)
  }

  /** The stored document, or a new one with the defaults when there is none. */
  function Current(main: Option<SiteSettings>, now: int): SiteSettings {
    if main.Some? then main.value else DefaultSettings(now)
  }

  // Request bodies: a section or a card is `Some` when the body carries an object there, and a
  // field is `Some` when that object has the key, whatever string it holds.

  datatype CardPatch = CardPatch(value: Option<string>, subtext: Option<string>)

  datatype ImpactPatch = ImpactPatch(
    tonsProcessed: Option<CardPatch>, globalUptime: Option<CardPatch>,
    collectionPoints: Option<CardPatch>, carbonOffset: Option<CardPatch>)

  datatype HeroPatch = HeroPatch(tagline: Option<string>, title: Option<string>, subtitle: Option<string>)

  datatype ContactPatch = ContactPatch(email: Option<string>, phone: Option<string>, address: Option<string>)

  datatype SettingsPatch = SettingsPatch(
    impactStats: Option<ImpactPatch>, hero: Option<HeroPatch>, contact: Option<ContactPatch>)

  // ---------------------------------------------------------------------------------------
  // The two merge rules
  // ---------------------------------------------------------------------------------------

  /** `{ ...stored, ...patch }` on one key: a key the patch has wins, whatever its value. */
  function Spread(stored: string, patch: Option<string>): (r: string)
    ensures patch.Some? ==> r == patch.value
    ensures patch.None? ==> r == stored
  {
    patch.GetOr(stored)
  }

  /** `patch || stored`: only a non-empty string replaces the stored value. */
  function KeepTruthy(stored: string, patch: Option<string>): (r: string)
    ensures r == stored || (patch.Some? && r == patch.value && r != "")
    ensures stored != "" ==> r != ""
    ensures patch.Some? && patch.value != "" ==> r == patch.value
  {
    if patch.Some? && patch.value != "" then patch.value else stored
  }

  function SpreadCard(c: StatCard, p: Option<CardPatch>): StatCard {
    match p
    case None => c
    case Some(q) => StatCard(Spread(c.value, q.value), Spread(c.subtext, q.subtext))
  }

  function TruthyCard(c: StatCard, p: Option<CardPatch>): StatCard {
    match p
    case None => c
    case Some(q) => StatCard(KeepTruthy(c.value, q.value), KeepTruthy(c.subtext, q.subtext))
  }

  /** PUT / on the impact statistics: every provided card is shallow-merged, the others kept. */
  function MergeImpact(s: ImpactStats, p: ImpactPatch): ImpactStats {
    ImpactStats(
      SpreadCard(s.tonsProcessed, p.tonsProcessed),
      SpreadCard(s.globalUptime, p.globalUptime),
      SpreadCard(s.collectionPoints, p.collectionPoints),
      SpreadCard(s.carbonOffset, p.carbonOffset))
  }

  function MergeHero(h: Hero, p: HeroPatch): Hero {
    Hero(Spread(h.tagline, p.tagline), Spread(h.title, p.title), Spread(h.subtitle, p.subtitle))
  }

  function MergeContact(c: Contact, p: ContactPatch): Contact {
    Contact(Spread(c.email, p.email), Spread(c.phone, p.phone), Spread(c.address, p.address))
  }

  /** PUT /: each provided section is shallow-merged; the key and the absent sections are kept. */
  function MergeSettings(s: SiteSettings, body: SettingsPatch): (r: SiteSettings)
    ensures r.key == s.key && r.updatedAt == s.updatedAt
    ensures body.impactStats.None? ==> r.impactStats == s.impactStats
    ensures body.hero.None? ==> r.hero == s.hero
    ensures body.contact.None? ==> r.contact == s.contact
  {
    s.(impactStats := if body.impactStats.Some? then MergeImpact(s.impactStats, body.impactStats.value) else s.impactStats,
       hero := if body.hero.Some? then MergeHero(s.hero, body.hero.value) else s.hero,
       contact := if body.contact.Some? then MergeContact(s.contact, body.contact.value) else s.contact)
  }

  /** The statistics part of PUT /settings: each provided card is spread over the stored one. */
  method SpreadCards(cards: ImpactStats, patch: ImpactPatch) returns (r: ImpactStats)
    ensures r == MergeImpact(cards, patch)
  {
    r := cards;
    if patch.tonsProcessed.Some? {
      r := r.(tonsProcessed := SpreadCard(r.tonsProcessed, patch.tonsProcessed));
    }
    if patch.globalUptime.Some? {
      r := r.(globalUptime := SpreadCard(r.globalUptime, patch.globalUptime));
    }
    if patch.collectionPoints.Some? {
      r := r.(collectionPoints := SpreadCard(r.collectionPoints, patch.collectionPoints));
    }
    if patch.carbonOffset.Some? {
      r := r.(carbonOffset := SpreadCard(r.carbonOffset, patch.carbonOffset));
    }
  }

  /** PUT /impact-stats: every provided card takes its non-empty fields, the others are kept. */
  function UpdateImpact(s: ImpactStats, p: ImpactPatch): ImpactStats {
    ImpactStats(
      TruthyCard(s.tonsProcessed, p.tonsProcessed),
      TruthyCard(s.globalUptime, p.globalUptime),
      TruthyCard(s.collectionPoints, p.collectionPoints),
      TruthyCard(s.carbonOffset, p.carbonOffset))
  }

  /** No field of the statistics is empty. */
  predicate CardsFilled(s: ImpactStats) {
    s.tonsProcessed.value != "" && s.tonsProcessed.subtext != "" &&
    s.globalUptime.value != "" && s.globalUptime.subtext != "" &&
    s.collectionPoints.value != "" && s.collectionPoints.subtext != "" &&
    s.carbonOffset.value != "" && s.carbonOffset.subtext != ""
  }

  /** The truthy-or-keep route can never empty a field, whatever the body holds. */
  lemma UpdateImpactKeepsFilled(s: ImpactStats, p: ImpactPatch)
    requires CardsFilled(s)
    ensures CardsFilled(UpdateImpact(s, p))
  {
  }

  /**
   * The shallow merge empties a field that the body sets to "", where the truthy-or-keep
   * route keeps the old text.
   */
  lemma OnlySpreadClears(s: ImpactStats)
    requires s.globalUptime.value != ""
    ensures var p := ImpactPatch(None, Some(CardPatch(Some(""), None)), None, None);
            MergeImpact(s, p).globalUptime.value == "" &&
            UpdateImpact(s, p).globalUptime.value == s.globalUptime.value
  {
  }

  /** A provided card whose present fields are all non-empty strings. */
  predicate CardHasNoEmpty(c: Option<CardPatch>) {
    c.Some? ==>
      (c.value.value.Some? ==> c.value.value.value != "") &&
      (c.value.subtext.Some? ==> c.value.subtext.value != "")
  }

  predicate PatchHasNoEmpty(p: ImpactPatch) {
    CardHasNoEmpty(p.tonsProcessed) && CardHasNoEmpty(p.globalUptime) &&
    CardHasNoEmpty(p.collectionPoints) && CardHasNoEmpty(p.carbonOffset)
  }

  /** A body with no empty strings means the same to both routes. */
  lemma RoutesAgreeWithoutEmpty(s: ImpactStats, p: ImpactPatch)
    requires PatchHasNoEmpty(p)
    ensures UpdateImpact(s, p) == MergeImpact(s, p)
  {
  }

  /** Both merges are idempotent: sending the same body twice changes nothing more. */
  lemma MergesIdempotent(s: SiteSettings, body: SettingsPatch, p: ImpactPatch)
    ensures MergeSettings(MergeSettings(s, body), body) == MergeSettings(s, body)
    ensures UpdateImpact(UpdateImpact(s.impactStats, p), p) == UpdateImpact(s.impactStats, p)
  {
  }

  // ---------------------------------------------------------------------------------------
  // The settings collection
  // ---------------------------------------------------------------------------------------

  /** The settings collection: the `main` document, when it has been created. */
  class SettingsStore {
    var main: Option<SiteSettings>

    predicate Valid()
      reads this
    {
      main.Some? ==> main.value.key == "main"
    }

    constructor()
      ensures main == None && Valid()
    {
      main := None;
    }

    /** GET /: the stored document, created with the defaults when there is none. */
    method Get(now: int) returns (s: SiteSettings)
      requires Valid()
      modifies this
      ensures Valid()
      ensures old(main).Some? ==> main == old(main) && s == old(main).value
      ensures old(main).None? ==> main == Some(s) && s == DefaultSettings(now)
    {
      if main.None? {
        main := Some(DefaultSettings(now));
      }
      s := main.value;
    }

    /** PUT /: section by section, card by card, then the save stamps `updatedAt`. */
    method Update(body: SettingsPatch, now: int) returns (s: SiteSettings)
      requires Valid()
      modifies this
      ensures Valid()
      ensures s == MergeSettings(Current(old(main), now), body).(updatedAt := now)
      ensures main == Some(s)
    {
      var settings := Current(main, now);
      if body.impactStats.Some? {
        var stats := SpreadCards(settings.impactStats, body.impactStats.value);
        settings := settings.(impactStats := stats);
      }
      if body.hero.Some? {
        settings := settings.(hero := MergeHero(settings.hero, body.hero.value));
      }
      if body.contact.Some? {
        settings := settings.(contact := MergeContact(settings.contact, body.contact.value));
      }
      settings := settings.(updatedAt := now);
      main := Some(settings);
      s := settings;
    }

    /** PUT /impact-stats: card by card, then the save; the reply is the statistics alone. */
    method UpdateImpactStats(body: ImpactPatch, now: int) returns (stats: ImpactStats)
      requires Valid()
      modifies this
      ensures Valid()
      ensures stats == UpdateImpact(Current(old(main), now).impactStats, body)
      ensures main == Some(Current(old(main), now).(impactStats := stats, updatedAt := now))
    {
      var settings := Current(main, now);
      if body.tonsProcessed.Some? {
        settings := settings.(impactStats := settings.impactStats.(tonsProcessed := TruthyCard(settings.impactStats.tonsProcessed, body.tonsProcessed)));
      }
      if body.globalUptime.Some? {
        settings := settings.(impactStats := settings.impactStats.(globalUptime := TruthyCard(settings.impactStats.globalUptime, body.globalUptime)));
      }
      if body.collectionPoints.Some? {
        settings := settings.(impactStats := settings.impactStats.(collectionPoints := TruthyCard(settings.impactStats.collectionPoints, body.collectionPoints)));
      }
      if body.carbonOffset.Some? {
        settings := settings.(impactStats := settings.impactStats.(carbonOffset := TruthyCard(settings.impactStats.carbonOffset, body.carbonOffset)));
      }
      settings := settings.(updatedAt := now);
      main := Some(settings);
      stats := settings.impactStats;
    }
  }
}
