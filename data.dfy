/** The records stored in the document collections (the `data` package).
    `Double` prices are integers in minor currency units and a Firestore
    `Timestamp?` is a nullable count of time units. */
module Data {
  import opened Kotlin

  /** The profile in `users/{uid}`. */
  datatype User = User(
    uid: string,
    specializedId: string,
    contactEmail: string,
    role: string,
    fullName: string)

  /** A dish in `menuItems`. */
  datatype MenuItem = MenuItem(
    id: string,
    name: string,
    description: string,
    price: int,
    imageUrl: string)

  /** A cafeteria order in `orders`. */
  datatype Order = Order(
    orderId: string,
    userId: string,
    userName: string,
    items: seq<string>,
    totalPrice: int,
    status: string,
    timestamp: Option<nat>)

  /** A shared note in `notePosts`. */
  datatype NotePost = NotePost(
    id: string,
    title: string,
    description: Option<string>,
    fileUrl: string,
    fileType: string,
    authorId: string,
    authorSapId: string,
    authorName: string,
    upvoteCount: int,
    upvotedBy: seq<string>,
    subject: string,
    timestamp: Option<nat>)

  /** A subject in `subjects`, stored under its own name as document id. */
  datatype Subject = Subject(name: string)

  /** One element of a skill request's `offers` array. */
  datatype HelperOffer = HelperOffer(
    helperUid: string,
    helperName: string,
    helperContactEmail: string)

  /** A request in `skillRequests`. */
  datatype SkillRequest = SkillRequest(
    requestId: string,
    skillName: string,
    description: string,
    postedByUid: string,
    postedByName: string,
    postedBySapId: string,
    status: string,
    preferredTimeSlots: string,
    offers: seq<HelperOffer>,
    timestamp: Option<nat>)

  /** A document in `lostAndFoundItems`: the declared fields plus the
      `claimedBy` field that the moderation view clears. */
  datatype LostFoundItem = LostFoundItem(
    id: string,
    name: string,
    description: Option<string>,
    location: string,
    status: string,
    reporterId: string,
    imageUrl: Option<string>,
    timestamp: Option<nat>,
    claimedBy: Option<string>)
}
