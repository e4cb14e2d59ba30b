/** The notification both components raise through the toast hook. */
module Toasts {

  /** A toast: its title, its description and whether it uses the "destructive" variant. */
  datatype Toast = Toast(title: string, description: string, destructive: bool)
}
