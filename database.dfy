/** The document store, held in memory: the `users` and `messages` collections. */
module Database {
  import opened Strings
  import opened UserModel
  import opened MessageModel

  /**
   * `mongoose.Types.ObjectId.isValid` on a string, and the strings `findById`
   * can cast to an ObjectId: exactly 24 hexadecimal digits, in either case.
   */
  predicate IsObjectIdString(s: string) {
    |s| == 24 && forall i :: 0 <= i < |s| ==> IsHexDigit(s[i])
  }

  /** The canonical (lower-case) hex form of the ObjectId a valid id string denotes; ObjectIds compare by value. */
  function ObjectIdOf(s: string): string {
    LowerAscii(s)
  }

  class Db {
    /** The `users` collection, by `_id`. */
    var users: map<UserId, User>
    /** The `messages` collection, in insertion (natural) order. */
    var messages: seq<Message>

    constructor (users: map<UserId, User>, messages: seq<Message>)
      ensures this.users == users && this.messages == messages
    {
      this.users := users;
      this.messages := messages;
    }
  }
}
