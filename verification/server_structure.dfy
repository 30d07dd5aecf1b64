/**
 * lib/Structures/Server.js: a server record as the site returns it and the
 * object the client hands out, with its owners keyed by user id.
 */
module ServerStructure {
  import opened Wrappers
  import opened Collections
  import UserStructure
  import BotStructure

  const URLPrefix := "https://botlist.space/server/"

  /** A server as the site sends it; the field names are the wire keys. */
  datatype RawServer = RawServer(
    id: string,
    name: string,
    short_description: string,
    full_description: string,
    member_count: int,
    icon: string,
    premium: bool,
    featured: bool,
    iconChildFriendly: bool,
    public: bool,
    vanity: Nullable<string>,
    timestamp: int,
    owners: seq<UserStructure.RawUser>)

  datatype Server = Server(
    id: string,
    name: string,
    shortDescription: string,
    fullDescription: string,
    memberCount: int,
    iconURL: string,
    premium: bool,
    featured: bool,
    iconChildFriendly: bool,
    public: bool,
    vanity: Nullable<string>,
    timestamp: int,
    owners: Collection<string, UserStructure.User>)

  /** `new Server(raw)`: four keys are renamed, the owners are collected, the rest is copied. */
  function FromRaw(raw: RawServer): Server {
    Server(raw.id, raw.name, raw.short_description, raw.full_description, raw.member_count,
           raw.icon, raw.premium, raw.featured, raw.iconChildFriendly, raw.public,
           raw.vanity, raw.timestamp, BotStructure.Owners(raw.owners))
  }

  /** The wire record a server would have been built from, owners in collection order. */
  function ToRaw(s: Server): RawServer {
    RawServer(s.id, s.name, s.shortDescription, s.fullDescription, s.memberCount,
              s.iconURL, s.premium, s.featured, s.iconChildFriendly, s.public, s.vanity, s.timestamp,
              BotStructure.OwnerRecords(s.owners))
  }

  /** With no owner listed twice, building a server loses nothing: the wire record comes back. */
  lemma RoundTrip(raw: RawServer)
    requires BotStructure.UniqueOwnerIDs(raw.owners)
    ensures ToRaw(FromRaw(raw)) == raw
  {
    BotStructure.OwnersRoundTrip(raw.owners);
  }

  /** One owner entry per distinct id, in first-seen order; a repeated id holds the last owner. */
  lemma OwnersByID(raw: RawServer, id: string)
    ensures Keys(FromRaw(raw).owners) == Distinct(KeysOf(raw.owners, BotStructure.OwnerID))
    ensures Get(FromRaw(raw).owners, id) == LastValue(raw.owners, BotStructure.OwnerID, UserStructure.FromRaw, id)
  {
    CollectKeys(raw.owners, BotStructure.OwnerID, UserStructure.FromRaw);
    CollectGet(raw.owners, BotStructure.OwnerID, UserStructure.FromRaw, id);
  }

  /** `getURL()`: the server's page on the site. */
  function GetURL(s: Server): (url: string)
    ensures URLPrefix <= url && url[|URLPrefix|..] == s.id
  {
    URLPrefix + s.id
  }

  /** `isNSFW()`: the negation of the raw `iconChildFriendly` flag. */
  predicate IsNSFW(s: Server) {
    !s.iconChildFriendly
  }

  /** `isPublic()`: the raw `public` flag. */
  predicate IsPublic(s: Server) {
    s.public
  }

  /** The flags read back from the wire record: `isNSFW` negates one, `isPublic` passes one on. */
  lemma FlagsFromRaw(raw: RawServer)
    ensures IsNSFW(FromRaw(raw)) <==> !raw.iconChildFriendly
    ensures IsPublic(FromRaw(raw)) <==> raw.public
  {
  }

  /** Bot, server and user pages never share a URL, whatever the ids. */
  lemma PageURLsDisjoint(b: BotStructure.Bot, s: Server, u: UserStructure.User)
    ensures BotStructure.GetURL(b) != GetURL(s)
    ensures BotStructure.GetURL(b) != UserStructure.GetURL(u)
    ensures GetURL(s) != UserStructure.GetURL(u)
  {
    assert BotStructure.GetURL(b)[22] == 'b';
    assert GetURL(s)[22] == 's';
    assert UserStructure.GetURL(u)[22] == 'u';
  }
}
