/** Fixed markup shared by the two mail templates. */
module Markup {

  /** The styling text of a template around its header, its table and its
      footer. The properties of the templates hold whatever this text is;
      each template module fixes the text its handler uses. */
  datatype Layout = Layout(lead: string, intro: string, outro: string, trailer: string)

  const HeadingOpen := "<h2 style=\"color: #ffffff; margin: 0;\">"
  const HeadingClose := "</h2>"
  const Copyright := "&copy; "
  const RightsReserved := ". All rights reserved.</p>"
}
