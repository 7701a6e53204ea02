/** What the network does to one RPC attempt. */
module Network {
  datatype Fate = Dropped | ReplyLost | Answered
}
