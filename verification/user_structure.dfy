/**
 * lib/Structures/User.js: a user record as the site returns it (snake_case
 * keys) and the camelCase object the client hands out.
 */
module UserStructure {
  import Json

  const URLPrefix := "https://botlist.space/user/"

  /** A user as the site sends it; the field names are the wire keys. */
  datatype RawUser = RawUser(
    id: string,
    avatar: string,
    username: string,
    discriminator: string,
    short_description: string,
    links: Json.Json)

  datatype User = User(
    id: string,
    avatarURL: string,
    username: string,
    discriminator: string,
    shortDescription: string,
    links: Json.Json)

  /** `new User(raw)`: `avatar` becomes `avatarURL`, `short_description` becomes `shortDescription`. */
  function FromRaw(raw: RawUser): (u: User)
    ensures ToRaw(u) == raw
  {
    User(raw.id, raw.avatar, raw.username, raw.discriminator, raw.short_description, raw.links)
  }

  /** The wire record a user was built from. */
  function ToRaw(u: User): RawUser {
    RawUser(u.id, u.avatarURL, u.username, u.discriminator, u.shortDescription, u.links)
  }

  /** `getURL()`: the user's profile page. */
  function GetURL(u: User): (url: string)
    ensures URLPrefix <= url && url[|URLPrefix|..] == u.id
  {
    URLPrefix + u.id
  }
}
