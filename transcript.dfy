/** One line of the preview conversation. */
module Transcript {
  datatype Sender = User | Bot

  datatype Entry = Entry(sender: Sender, text: string)
}
