/** EPollPoller's three states of a channel (net/Poller/EPollPoller.cpp): not known, in the kernel's set, or known
    but taken out of it. */
module ChannelIndexes {
  datatype Index = New | Added | Deleted
}
