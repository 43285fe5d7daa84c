/** The badge styles the dashboard pages choose between. */
module Badges {
  datatype Variant = Default | Secondary | Outline | Destructive
}
