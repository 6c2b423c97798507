/** The errors a link check raises. */
module Exceptions {

  /** The InvalidLink exception family: the generic base class and its three
      subclasses, one per violated condition. */
  datatype LinkError = InvalidLink | InactiveLink | ExpiredLink | UsedLink

  /** What the views catch and turn into a 403: an InvalidLink (or subclass),
      or the framework's PermissionDenied raised by the cross-user check. */
  datatype Denial = LinkDenied(reason: LinkError) | PermissionDenied
}
