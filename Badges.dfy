/** The colour of a status badge or event marker. Each panel maps its tags to
    one of these; the Tailwind class strings that realise a colour are
    presentation. */
module Badges {
  datatype Colour = Red | Yellow | Green | Blue | Gray
}
