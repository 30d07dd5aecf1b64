/**
 * lib/Structures/Bot.js: a bot record as the site returns it and the object
 * the client hands out, with its owners gathered into a collection keyed by
 * user id.
 */
module BotStructure {
  import opened Wrappers
  import opened Text
  import opened Collections
  import Json
  import UserStructure

  const URLPrefix := "https://botlist.space/bot/"

  /** A bot as the site sends it; the field names are the wire keys. */
  datatype RawBot = RawBot(
    id: string,
    username: string,
    discriminator: string,
    short_description: string,
    full_description: string,
    avatar: string,
    invite: string,
    avatarChildFriendly: bool,
    library: string,
    prefix: string,
    owners: seq<UserStructure.RawUser>,
    vanity: Nullable<string>,
    premium: bool,
    featured: bool,
    links: Json.Json,
    timestamp: int)

  datatype Bot = Bot(
    id: string,
    username: string,
    discriminator: string,
    shortDescription: string,
    fullDescription: string,
    avatarURL: string,
    invite: string,
    avatarChildFriendly: bool,
    library: string,
    prefix: string,
    owners: Collection<string, UserStructure.User>,
    vanity: Nullable<string>,
    premium: bool,
    featured: bool,
    links: Json.Json,
    timestamp: int)

  function OwnerID(o: UserStructure.RawUser): string {
    o.id
  }

  /** The owners loop: `owners.set(owner.id, new User(owner))` for each owner in order. */
  function Owners(raw: seq<UserStructure.RawUser>): Collection<string, UserStructure.User> {
    Collect(raw, OwnerID, UserStructure.FromRaw)
  }

  /** The owners' wire records, in collection order. */
  function OwnerRecords(c: Collection<string, UserStructure.User>): (raw: seq<UserStructure.RawUser>)
    ensures |raw| == |c|
  {
    seq(|c|, i requires 0 <= i < |c| => UserStructure.ToRaw(c[i].1))
  }

  /** With no id listed twice, collecting the owners keeps every record, in order. */
  lemma OwnersRoundTrip(raw: seq<UserStructure.RawUser>)
    requires UniqueOwnerIDs(raw)
    ensures OwnerRecords(Owners(raw)) == raw
  {
    var owners := Owners(raw);
    CollectUnique(raw, OwnerID, UserStructure.FromRaw);
    var back := OwnerRecords(owners);
    forall i | 0 <= i < |raw|
      ensures back[i] == raw[i]
    {
      assert owners[i].1 == UserStructure.FromRaw(raw[i]);
    }
  }

  /** `new Bot(raw)`: three keys are renamed, the owners are collected, the rest is copied. */
  function FromRaw(raw: RawBot): Bot {
    Bot(raw.id, raw.username, raw.discriminator, raw.short_description, raw.full_description,
        raw.avatar, raw.invite, raw.avatarChildFriendly, raw.library, raw.prefix,
        Owners(raw.owners), raw.vanity, raw.premium, raw.featured, raw.links, raw.timestamp)
  }

  /** The wire record a bot would have been built from, owners in collection order. */
  function ToRaw(b: Bot): RawBot {
    RawBot(b.id, b.username, b.discriminator, b.shortDescription, b.fullDescription,
           b.avatarURL, b.invite, b.avatarChildFriendly, b.library, b.prefix,
           OwnerRecords(b.owners),
           b.vanity, b.premium, b.featured, b.links, b.timestamp)
  }

  predicate UniqueOwnerIDs(raw: seq<UserStructure.RawUser>) {
    forall i, j | 0 <= i < j < |raw| :: raw[i].id != raw[j].id
  }

  /** With no owner listed twice, building a bot loses nothing: the wire record comes back. */
  lemma RoundTrip(raw: RawBot)
    requires UniqueOwnerIDs(raw.owners)
    ensures ToRaw(FromRaw(raw)) == raw
  {
    OwnersRoundTrip(raw.owners);
  }

  /**
   * The owners collection has one entry per distinct owner id, in first-seen
   * order, and a repeated id holds the last owner listed under it.
   */
  lemma OwnersByID(raw: RawBot, id: string)
    ensures Keys(FromRaw(raw).owners) == Distinct(KeysOf(raw.owners, OwnerID))
    ensures Get(FromRaw(raw).owners, id) == LastValue(raw.owners, OwnerID, UserStructure.FromRaw, id)
    ensures Has(FromRaw(raw).owners, id) <==> exists i | 0 <= i < |raw.owners| :: raw.owners[i].id == id
  {
    CollectKeys(raw.owners, OwnerID, UserStructure.FromRaw);
    CollectGet(raw.owners, OwnerID, UserStructure.FromRaw, id);
    CollectHas(raw.owners, OwnerID, UserStructure.FromRaw, id);
  }

  /** `getURL()`: the bot's page on the site. */
  function GetURL(b: Bot): (url: string)
    ensures URLPrefix <= url && url[|URLPrefix|..] == b.id
  {
    URLPrefix + b.id
  }

  /** `getTag()`: `username#discriminator`. */
  function GetTag(b: Bot): (tag: string)
    ensures |tag| == |b.username| + 1 + |b.discriminator|
    ensures tag[|b.username|] == '#'
    ensures tag[..|b.username|] == b.username && tag[|b.username| + 1..] == b.discriminator
  {
    b.username + "#" + b.discriminator
  }

  /** A tag splits back at its `#` into username and discriminator when neither holds a `#`. */
  lemma TagSplitsBack(b: Bot)
    requires '#' !in b.username && '#' !in b.discriminator
    ensures Split(GetTag(b), '#') == [b.username, b.discriminator]
  {
    var parts := [b.username, b.discriminator];
    assert Join(parts, '#') == b.username + ['#'] + Join(parts[1..], '#');
    assert GetTag(b) == Join(parts, '#');
    SplitJoin(parts, '#');
  }

  /** `isNSFW()`: the negation of the raw `avatarChildFriendly` flag. */
  predicate IsNSFW(b: Bot) {
    !b.avatarChildFriendly
  }

  /** A bot is NSFW exactly when the site did not mark its avatar child-friendly. */
  lemma IsNSFWFromRaw(raw: RawBot)
    ensures IsNSFW(FromRaw(raw)) <==> !raw.avatarChildFriendly
    ensures FromRaw(raw).shortDescription == raw.short_description
    ensures FromRaw(raw).fullDescription == raw.full_description
    ensures FromRaw(raw).avatarURL == raw.avatar
  {
  }
}
