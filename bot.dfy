/**
 * What a handler asks the host bot to do, in the order it asks: a channel
 * message (`bot.say(text, target)`), a reply to the user who issued the
 * command in the channel it came from (`bot.reply(text)`), or a write of
 * the configuration file (`bot.config.save()`).
 */
module Bot {

  datatype Effect = Say(text: string, target: string) | Reply(text: string) | Save
}
