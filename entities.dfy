/**
 * The backend's persisted records, reduced to the fields the modelled
 * operations read. A nullable column or a nullable reference to a user is an
 * `Option`; a reference to a user is that user's id.
 */
module Entities {
  import opened Wrappers

  datatype User = User(
    userId: Option<int>,
    firstName: Option<string>,
    lastName: Option<string>,
    email: Option<string>,
    university: Option<string>,
    latitude: Option<real>,
    longitude: Option<real>,
    showLocation: Option<bool>)

  /** `owner` is `profile.getUser().getUserId()`, absent when either is null. */
  datatype Profile = Profile(
    owner: Option<int>,
    major: Option<string>,
    year: Option<string>,
    bio: Option<string>,
    latitude: Option<real>,
    longitude: Option<real>,
    showLocation: Option<bool>)

  datatype UserSkill = UserSkill(
    skillId: int,
    owner: Option<int>,
    skillName: Option<string>,
    skillLevel: Option<string>,
    offering: Option<bool>,
    seeking: Option<bool>)

  datatype UserInterest = UserInterest(owner: Option<int>, interestName: Option<string>)

  datatype Swipe = Swipe(swiper: Option<int>, swipee: Option<int>, isLike: Option<bool>)

  datatype Match = Match(matchId: int, user1: Option<int>, user2: Option<int>)

  /** `sentAt` is the timestamp as a number, so that it can be ordered. */
  datatype Message = Message(
    messageId: int,
    matchId: int,
    senderId: int,
    content: string,
    isRead: bool,
    sentAt: int)
}
