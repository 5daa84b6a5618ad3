/** Actor identities, compared by value. The id's kinds (long, GUID, string) are not told apart. */
module ActorIds {
  datatype ActorId = ActorId(id: string)
}
