/** The message body of a request: the HTML body and its plain alternative. */
module Messages {
  import opened Php

  class Message {
    var body: Option<string>
    var altBody: Option<string>

    /** A message built without arguments: both bodies are the empty string. */
    constructor Empty()
      ensures GetBody() == Some("") && GetAlt() == Some("")
      ensures !Truthy(GetBody())
    {
      body := Some("");
      altBody := Some("");
    }

    /** A message holding the given HTML and alternative text unchanged. */
    constructor (html: Option<string>, alt: Option<string>)
      ensures GetBody() == html && GetAlt() == alt
    {
      body := html;
      altBody := alt;
    }

    function GetBody(): Option<string>
      reads this
    {
      body
    }

    function GetAlt(): Option<string>
      reads this
    {
      altBody
    }

    method SetBody(html: Option<string>)
      modifies this`body
      ensures GetBody() == html && GetAlt() == old(GetAlt())
    {
      body := html;
    }

    method SetAlt(alt: Option<string>)
      modifies this`altBody
      ensures GetAlt() == alt && GetBody() == old(GetBody())
    {
      altBody := alt;
    }
  }
}
